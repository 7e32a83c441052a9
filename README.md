# slox front end in Dafny

This project models `libslox`, the front end of a Swift interpreter for the Lox language. It covers five parts:

- **Scanner** (`Sources/libslox/scanner.swift`). It gives the token kinds, the `sameType` comparison and the keyword table. The `Scanner` class walks the source one character at a time and appends tokens. Its offset `idx` rests on the last character read, so `peek()` looks at the character after `idx`.
- **Parser** (`Sources/libslox/slox_parser.swift`). This is a recursive-descent `Parser` class with a cursor `current`. It covers expressions (primary, unary, factor, term, comparison, equality), print, expression and block statements, variable declarations inside blocks, and panic-mode `synchronize`.
- **AST printer** (`Sources/libslox/expr.swift`). `parenthesize` and each node's `display()`.
- **Environment chain** (`Sources/libslox/environment.swift`). A scope with a dictionary of values and an optional parent. It provides `define`, `assign` and `get`.
- **Error report** (`Sources/libslox/errors.swift`). `LoxError.report()`.

The model has two layers:

- **Pure specification.** Each stateful component has one:
  - `ScanSpec` describes the scanner: the step each character triggers, and the scan loop.
  - `ParseSpec` describes the parser as functions from a token list and a position to a result and the next position.
  - `EnvChain` describes the environment as a sequence of scopes, innermost first.
- **Imperative implementation.** Each class of the source becomes a Dafny class with the same fields, and each of its methods a Dafny method with the same loops. The classes also carry ghost fields for the proofs (the environment's depth and ancestors). Three methods are added: `Parser.Initializer` for `varDeclarationStmt`'s inline `if` expression, and `Scanner.ScanDigits` and `Scanner.ScanOperator` for code that `scanNumber` and `scanToken` write out twice or four times. Each method's `ensures` ties the result and the new state to the specification. For example:
  - `Scanner.ScanTokens` returns `ScanFrom(source, idx, tokens)`;
  - each parser method `Agrees` with its `Parse…` function;
  - `Environment.Assign` changes the scope `Holder` names and nothing else.

The properties are then proved about the specification:

- the scanner ends with exactly one EOF token, and token lines never decrease;
- numbers and identifiers are scanned maximally, and operators greedily;
- the parser's trees respect precedence and left associativity;
- a parsed expression spells exactly the tokens it consumed;
- the first token decides the statement; print and expression statements end on `;`, blocks on `}` and hold only declarations, and a declaration has an initializer exactly when `=` follows its name;
- recovery stops at the next statement boundary;
- lookup finds the nearest binding, and assignment touches only the scope holding the name;
- the line number in an error report can be read back out of the report.

Notes on how the model departs from the code or its tests:

- **Swift traps in the scanner.** The scanner traps in two places; the model returns a `Trapped` failure for both:
  - slicing a string literal out of `""` (an empty string literal);
  - a lone `"` at the very end of the input.
- **Integers.** Swift's `Int` line and position counters and `String.Index` offsets are modelled as unbounded `nat`/`int`, and character offsets play the role of indices.
- **Literals print their lexeme.** The printer echoes a literal's lexeme.
  - `Sources/UnitTests/ParserTests.swift:20-51` and `Sources/UnitTests/ExprTests.swift:25` expect `12.0`-style float renderings, which the code does not produce.
  - `Sources/UnitTests/ParserTests.swift:26-28` expect string literals printed without their quotes. The code prints the lexeme, quotes included.
  - The model follows the code: `Ast.DisplayEchoesLexemes` shows `123` is printed, not `123.0`.
- **The parser tests leave out the `;`.** No source in `Sources/UnitTests/ParserTests.swift:20-51` ends with the `;` that `expressionStmt` requires (slox_parser.swift:216-220).
  - So `parse()` returns none for each of them, and the tests' `ast!` (ParserTests.swift:10) would trap.
  - The model follows the code: `ParseExamples.BareNumberIsRejected` shows that the tokens of `12` fail with "Expect ';' after expression" at EOF.

## Model

| member | source | states |
|---|---|---|
| `Tokens.IsDigit` | Sources/libslox/scanner.swift:214-216 | by definition, the ASCII decimal digits, which is what `c.isASCII && c.isNumber` accepts |
| `Tokens.Erase` | Sources/libslox/scanner.swift:55-62 | by definition, a kind with the payload of IDENTIFIER, STRING or NUMBER dropped; the reference against which `SameType` is proved |
| `Tokens.SameType` | Sources/libslox/scanner.swift:55-62 | by definition, `sameType(as:)`: two IDENTIFIERs, two STRINGs or two NUMBERs match whatever their payloads; any other kind matches only itself |
| `Tokens.IsKeywordKind` | Sources/libslox/scanner.swift:76-93 | by definition, the sixteen kinds that are values of the keyword table |
| `Tokens.KeywordText` | Sources/libslox/scanner.swift:76-93 | by definition, the table's key for each keyword kind, read in the other direction |
| `Tokens.SameTypeIsErasedEquality` | Sources/libslox/scanner.swift:55-62 | `sameType` holds exactly when the two kinds are equal once the payloads of IDENTIFIER, STRING and NUMBER are ignored |
| `Tokens.SameTypeIsEquivalence` | Sources/libslox/scanner.swift:55-62 | `sameType` is reflexive, symmetric and transitive |
| `Tokens.IdentifierKind` | Sources/libslox/scanner.swift:76-93 | a word is an IDENTIFIER carrying its own text exactly when it is not a key of the keyword table; otherwise it is the keyword kind whose spelling is the word; the table is the constant `Tokens.Keywords`, the sixteen entries of scanner.swift:76-93 |
| `Tokens.KeywordTableRoundTrip` | Sources/libslox/scanner.swift:76-93 | every keyword kind is in the table under its spelling, so spelling then looking up gives the kind back |
| `Errors.DigitChar` | Sources/libslox/errors.swift:8 | the character chosen for a digit is a decimal digit whose value is that digit |
| `Errors.NatText` | Sources/libslox/errors.swift:8 | the decimal rendering of a line number used in `\(line)` is non-empty and all digits |
| `Errors.NatTextRoundTrip` | Sources/libslox/errors.swift:8 | reading the rendered digits back gives the number |
| `Errors.DigitPrefix` | Sources/libslox/errors.swift:8 | the leading-digit run of a text is a prefix, all digits, and maximal |
| `Errors.DigitPrefixOfDigits` | Sources/libslox/errors.swift:8 | the leading-digit run of digits followed by a non-digit is exactly those digits |
| `Errors.Report` | Sources/libslox/errors.swift:5-16 | the report format itself, by definition: `[line L] Error: message` for a scanner error, `[line L, at end message]` for a parser error at EOF, `[line L, at message]` for any other parser error |
| `Errors.IntText` | Sources/libslox/errors.swift:8 | the decimal text `\(line)` interpolates, with `-` for a negative line |
| `Errors.NatTextThenDiffer` | Sources/libslox/errors.swift:8 | a number's digits cannot run on into a following non-digit, so texts that differ right after the digits differ |
| `Errors.IntTextThenDiffer` | Sources/libslox/errors.swift:8 | the same for a signed line number |
| `Errors.ScannerReportIsNotParserReport` | Sources/libslox/errors.swift:5-16 | no scanner error's report equals any parser error's report: `]` follows the line of the one and `,` that of the other |
| `Errors.AtEndReportIsAmbiguous` | Sources/libslox/errors.swift:10-13 | a parser error at EOF reports the same text as a non-EOF parser error on that line whose message starts with `end ` |
| `Errors.ReportIgnoresPosition` | Sources/libslox/errors.swift:7-8 | the column of a scanner error never shows in its report |
| `Errors.ReportIgnoresLexeme` | Sources/libslox/errors.swift:10-13 | a parser error's report depends only on the token's line and on whether it is EOF, not on its lexeme |
| `Errors.ReportedLineOf` | Sources/libslox/errors.swift:8 | the line number can be read back from any text starting `[line ` and that number's digits |
| `Errors.ReportLineRoundTrip` | Sources/libslox/errors.swift:5-16 | for every error with a non-negative line, the line read back from its report is the error's line |
| `Ast.Spaced` | Sources/libslox/expr.swift:9-12 | by definition, the loop's output after the name: one space, then one rendered operand, for each operand in order |
| `Ast.Parenthesized` | Sources/libslox/expr.swift:6-16 | by definition, `parenthesize` once the operands are rendered: `(`, the name, the spaced renderings, `)` |
| `Ast.Display` | Sources/libslox/expr.swift:19-46 | by definition, each node's `display()`: a literal its lexeme, a grouping through `parenthesize` with `group`, a unary or binary node through `parenthesize` with its operator's lexeme |
| `Ast.DisplayAll` | Sources/libslox/expr.swift:9-12 | one rendering per operand |
| `Ast.DisplayAllAt` | Sources/libslox/expr.swift:9-12 | the k-th rendering is the k-th operand's `display()` |
| `Ast.DisplayAllAppend` | Sources/libslox/expr.swift:9-12 | rendering one more operand appends its `display()` |
| `Ast.SpacedAppend` | Sources/libslox/expr.swift:9-12 | each loop step appends a space and the next rendering |
| `Ast.Parenthesize` | Sources/libslox/expr.swift:6-16 | the appending loop builds `(name e1 e2 ...)`: an opening parenthesis, the name, each operand's rendering after a space, and a closing parenthesis |
| `Ast.ParenthesizedNothing` | Sources/libslox/expr.swift:6-16 | with no operands, parenthesize gives `(name)` |
| `Ast.DisplayLiteral` | Sources/libslox/expr.swift:38 | a literal prints its lexeme |
| `Ast.DisplayGrouping` | Sources/libslox/expr.swift:30 | a grouping prints `(group e)` |
| `Ast.DisplayUnary` | Sources/libslox/expr.swift:45 | a unary node prints `(op e)` |
| `Ast.DisplayBinary` | Sources/libslox/expr.swift:24 | a binary node prints `(op left right)` in operator-first order |
| `Ast.DisplayIsParenthesised` | Sources/libslox/expr.swift:6-16 | every node other than a literal or variable prints as a text starting with `(` and ending with `)` |
| `Ast.DisplayEchoesLexemes` | Sources/UnitTests/ExprTests.swift:13-29 | the test's tree for `-123 * (45.67)` prints `(* (- 123) (group 45.67))`, not the `123.0` the test expects |
| `ScanSpec.IsAlpha` | Sources/libslox/scanner.swift:218-220 | by definition, the ASCII letters, standing for `isLetter` |
| `ScanSpec.IsIdentifierStart` | Sources/libslox/scanner.swift:218-220 | by definition, a letter or `_` |
| `ScanSpec.IsIdentifierInner` | Sources/libslox/scanner.swift:222-224 | by definition, an identifier start or a digit |
| `ScanSpec.LineAt` | Sources/libslox/scanner.swift:138-150 | by definition, the `line` counter once `idx` has reached an offset: 1, plus one for each newline stepped onto; `LineAtCountsNewlines` proves this equals a count of newlines |
| `ScanSpec.PosAt` | Sources/libslox/scanner.swift:138-150 | by definition, the `linePos` counter once `idx` has reached an offset: one more per character stepped onto, set to 0 on stepping onto a newline |
| `ScanSpec.PeekAt` | Sources/libslox/scanner.swift:152-158 | by definition, the character after an offset, or none when it is the last |
| `ScanSpec.PeekNextAt` | Sources/libslox/scanner.swift:160-168 | by definition, the character two after an offset, or none |
| `ScanSpec.UntilStop` | Sources/libslox/scanner.swift:190-198 | scanning towards a character stops inside the text, either at the last character or just before an occurrence of it |
| `ScanSpec.UntilEnd` | Sources/libslox/scanner.swift:190-198 | `scanUntil` stays inside the text whether or not it steps onto the stop character |
| `ScanSpec.DigitsEnd` | Sources/libslox/scanner.swift:227-229 | the digit loop stops inside the text at a position whose next character is not a digit |
| `ScanSpec.NumberEnd` | Sources/libslox/scanner.swift:226-242 | a number ends inside the text, at or after its first digit |
| `ScanSpec.NumberEndSteps` | Sources/libslox/scanner.swift:226-242 | a number is a digit run, then one dot and a second digit run only when a digit follows the dot |
| `ScanSpec.IdentifierEnd` | Sources/libslox/scanner.swift:244-253 | an identifier ends inside the text, before a character that cannot continue it |
| `ScanSpec.TokenAt` | Sources/libslox/scanner.swift:184-188 | by definition, the token `addToken` builds for a span: the kind, the text of the span, and the line at its last character |
| `ScanSpec.SingleCharKind` | Sources/libslox/scanner.swift:261-270 | by definition, the ten characters that are tokens on their own, with their kinds |
| `ScanSpec.OperatorStep` | Sources/libslox/scanner.swift:273-300 | by definition, one of `!`, `=`, `<`, `>`: the two-character kind over both characters when `=` follows, else the one-character kind |
| `ScanSpec.StringStep` | Sources/libslox/scanner.swift:200-211 | by definition, `scanString` from the opening quote: "Unterminated string" when the scan ends elsewhere than on a quote, a trap when the quotes are adjacent, else a STRING of the text between them |
| `ScanSpec.TokenStep` | Sources/libslox/scanner.swift:256-328 | one `scanToken` step, when it succeeds, ends at or after where it started and inside the text |
| `ScanSpec.EofToken` | Sources/libslox/scanner.swift:338 | by definition, the token `scanTokens` appends last: kind EOF, an empty lexeme, and the given line |
| `ScanSpec.ScanLoop` | Sources/libslox/scanner.swift:331-338 | by definition, the `repeat { scanToken() } while advance()` loop: each step's token appended, the first failure ending the scan, and EOF on the last character's line appended at the end |
| `ScanSpec.ScanFrom` | Sources/libslox/scanner.swift:330-341 | by definition, `scanTokens` from a given state: the empty source gives only EOF, otherwise the loop |
| `ScanSpec.Scan` | Sources/libslox/scanner.swift:111-122 | by definition, `Scanner(source:).scanTokens()`: the scan from offset 0 with no tokens |
| `ScanSpec.ScanLoopUnfolds` | Sources/libslox/scanner.swift:330-341 | proof step, one unfolding of `ScanLoop`: the scan loop is `scanToken`, emit the token if there is one, advance, and continue while characters remain, otherwise append EOF |
| `Scanning.Scanner.constructor` | Sources/libslox/scanner.swift:111-122 | a new scanner starts at offset 0 on line 1, column 1, with no tokens |
| `Scanning.Scanner.CanReadMore` | Sources/libslox/scanner.swift:124-126 | true exactly when a character follows the one at `idx` |
| `Scanning.Scanner.FoundChar` | Sources/libslox/scanner.swift:128-134 | true exactly when no character follows `idx`, or the one after `idx` is the given character |
| `Scanning.Scanner.Advance` | Sources/libslox/scanner.swift:138-150 | it steps `idx` on exactly when a character follows it, and keeps line and column in step with the newlines stepped onto |
| `Scanning.Scanner.Peek` | Sources/libslox/scanner.swift:152-158 | the character after `idx`, or none at the end |
| `Scanning.Scanner.PeekNext` | Sources/libslox/scanner.swift:160-168 | the character two after `idx`, or none |
| `Scanning.Scanner.Match` | Sources/libslox/scanner.swift:171-179 | it steps `idx` on exactly when the character after `idx` is the expected one |
| `Scanning.Scanner.AddToken` | Sources/libslox/scanner.swift:184-188 | it appends the token with the lexeme from `startIdx` through `idx`, on the current line |
| `Scanning.Scanner.ScanUntil` | Sources/libslox/scanner.swift:190-198 | `idx` ends where `UntilEnd` says: on the stop character, or just before it, or on the last character |
| `Scanning.Scanner.ScanString` | Sources/libslox/scanner.swift:200-211 | it appends a STRING of the text between the quotes, or fails with "Unterminated string", or traps, exactly as `StringStep` says |
| `Scanning.Scanner.ScanDigits` | Sources/libslox/scanner.swift:227-229 | `idx` ends on the last digit of the run |
| `Scanning.Scanner.ScanNumber` | Sources/libslox/scanner.swift:226-242 | `idx` ends at `NumberEnd`, and one NUMBER token with the scanned text is appended |
| `Scanning.Scanner.ScanIdentifier` | Sources/libslox/scanner.swift:244-253 | `idx` ends at `IdentifierEnd`, and one token is appended whose kind is the keyword or IDENTIFIER for the scanned word |
| `Scanning.Scanner.ScanOperator` | Sources/libslox/scanner.swift:273-300 | it appends the two-character operator when `=` follows, otherwise the single one |
| `Scanning.Scanner.ScanToken` | Sources/libslox/scanner.swift:256-328 | the tokens, `idx` and outcome are those of `TokenStep` on the character at `idx` |
| `Scanning.Scanner.ScanTokens` | Sources/libslox/scanner.swift:330-341 | the result is the specified scan from the current state; on success the token list is the result |
| `Scanning.ScanSource` | Sources/libslox/scanner.swift:111-122 | scanning a fresh scanner over a text gives exactly `Scan(text)` |
| `ScanProperties.LineAtCountsNewlines` | Sources/libslox/scanner.swift:138-150 | the line at an offset is one plus the number of newlines stepped onto up to it |
| `ScanProperties.LineAtMonotone` | Sources/libslox/scanner.swift:138-150 | the line is at least 1 and never decreases as `idx` moves on |
| `ScanProperties.UntilStopIsFirst` | Sources/libslox/scanner.swift:190-198 | the scan towards a character stops just before its first occurrence, or at the end |
| `ScanProperties.UntilStopSkips` | Sources/libslox/scanner.swift:190-198 | no character passed over is the stop character |
| `ScanProperties.DigitsEndRun` | Sources/libslox/scanner.swift:227-229 | every character the digit loop passes over is a digit |
| `ScanProperties.IdentifierEndRun` | Sources/libslox/scanner.swift:244-253 | every character the identifier loop passes over can continue an identifier |
| `ScanProperties.TokenStepNeverEof` | Sources/libslox/scanner.swift:256-328 | a step never emits EOF and never emits an empty lexeme |
| `ScanProperties.OperatorsAreGreedy` | Sources/libslox/scanner.swift:273-300 | `!`, `=`, `<`, `>` followed by `=` give the two-character token with two-character lexeme; otherwise the single token |
| `ScanProperties.LineComment` | Sources/libslox/scanner.swift:303-306 | `//` emits nothing and skips to the next newline, or to the end of input when there is none |
| `ScanProperties.LoneSlash` | Sources/libslox/scanner.swift:303-309 | a `/` not followed by `/` is a SLASH token |
| `ScanProperties.NumberStep` | Sources/libslox/scanner.swift:226-242 | a digit starts a NUMBER token whose lexeme is the text up to `NumberEnd` |
| `ScanProperties.NumberIsMaximal` | Sources/libslox/scanner.swift:226-242 | a number's lexeme is digits with at most one inner dot followed by digits; no digit follows it; a dot after an undotted number is not followed by a digit |
| `ScanProperties.LeadingDigits` | Sources/libslox/scanner.swift:227-229 | the first run of a number is all digits |
| `ScanProperties.DottedLexeme` | Sources/libslox/scanner.swift:231-238 | two digit runs joined by a dot form a number lexeme containing a dot |
| `ScanProperties.IdentifierLiteral` | Sources/libslox/scanner.swift:244-253 | a letter or underscore starts the longest identifier-character run; its kind is IDENTIFIER(text) exactly when the word is not a keyword |
| `ScanProperties.QuoteStep` | Sources/libslox/scanner.swift:311 | a quote dispatches to the string scanner |
| `ScanProperties.StringLiteral` | Sources/libslox/scanner.swift:200-211 | a quote closed later gives a STRING of the inner text with the quoted lexeme, on the closing quote's line; `""` traps |
| `ScanProperties.UnterminatedString` | Sources/libslox/scanner.swift:200-211 | a quote never closed fails with "Unterminated string" at the last character; a final lone quote traps |
| `ScanProperties.WhitespaceIsSkipped` | Sources/libslox/scanner.swift:314 | space, carriage return and newline emit nothing |
| `ScanProperties.InvalidCharacter` | Sources/libslox/scanner.swift:316-326 | any other character fails with "Invalid character" and that character, at its line and column |
| `ScanProperties.TabIsInvalid` | Sources/libslox/scanner.swift:314-326 | a tab is not whitespace here and is reported as invalid |
| `ScanProperties.EmptyInput` | Sources/libslox/scanner.swift:111-122 | the empty text scans to a single EOF token on line 1 |
| `ScanProperties.EndsWithEofShorter` | Sources/libslox/scanner.swift:330-341 | a result that ends with one EOF after a prefix also does so after any shorter prefix |
| `ScanProperties.EndsWithEofLast` | Sources/libslox/scanner.swift:338 | appending EOF to EOF-free tokens gives one final EOF with an empty lexeme |
| `ScanProperties.ScanLoopEndsWithEof` | Sources/libslox/scanner.swift:330-341 | the loop keeps what was already scanned and ends with one EOF |
| `ScanProperties.ScanEndsWithOneEof` | Sources/libslox/scanner.swift:330-341 | every successful scan ends with exactly one EOF token, with an empty lexeme, and has no EOF before it |
| `ScanProperties.TokenStepLine` | Sources/libslox/scanner.swift:184-188 | an emitted token carries the line of its last character |
| `ScanProperties.SortedExtend` | Sources/libslox/scanner.swift:330-341 | appending tokens on a line no smaller than all earlier ones keeps lines sorted |
| `ScanProperties.ScanLoopLinesSorted` | Sources/libslox/scanner.swift:330-341 | the loop keeps token lines non-decreasing |
| `ScanProperties.ScanLinesNeverDecrease` | Sources/libslox/scanner.swift:330-341 | the tokens of a successful scan have non-decreasing line numbers |
| `ScanProperties.TrailingDotIsNotPartOfNumber` | Sources/libslox/scanner.swift:231-238 | `1.` scans as the NUMBER `1`, then DOT, then EOF |
| `ParseSpec.WellFormed` | Sources/libslox/scanner.swift:338 | by definition, a token list that ends with EOF, as `scanTokens` produces |
| `ParseSpec.AtEnd` | Sources/libslox/slox_parser.swift:40-42 | by definition, the token at a position is EOF |
| `ParseSpec.CheckAt` | Sources/libslox/slox_parser.swift:55-60 | by definition, `check(type:)` at a position: false at EOF, else `sameType` with the token there |
| `ParseSpec.AnyCheck` | Sources/libslox/slox_parser.swift:62-69 | by definition, whether `match(oneOf:)` finds some option, trying them in order |
| `ParseSpec.CheckedIsNotLast` | Sources/libslox/slox_parser.swift:55-60 | a successful check is never on the final EOF, so there is a token after it |
| `ParseSpec.Terminated` | Sources/libslox/slox_parser.swift:71-77 | consuming the terminator moves one token on, staying before the end |
| `ParseSpec.ParseGrouping` | Sources/libslox/slox_parser.swift:107-112 | a parenthesised expression, when it parses, ends after the `(` and before the end |
| `ParseSpec.ParsePrimary` | Sources/libslox/slox_parser.swift:98-117 | a primary, when it parses, consumes at least one token; the literal kinds it matches are the constant `ParseSpec.LiteralKinds`, the list of slox_parser.swift:99 |
| `ParseSpec.ParseUnary` | Sources/libslox/slox_parser.swift:120-128 | a unary, when it parses, consumes at least one token; its operators are the constant `ParseSpec.UnaryOperators`, the list of slox_parser.swift:121 |
| `ParseSpec.Operators` | Sources/libslox/slox_parser.swift:134-170 | by definition, each binary level's operators in the order its `match(oneOf:)` lists them: factor `/ *` (line 134), term `+ -` (146), comparison `> >= < <=` (158), equality `!= ==` (170) |
| `ParseSpec.ParseOperand` | Sources/libslox/slox_parser.swift:131-177 | each level's operand, the next tighter level, consumes at least one token |
| `ParseSpec.LevelLoop` | Sources/libslox/slox_parser.swift:134-138 | the operator loop of a level never moves backwards and stays before the end |
| `ParseSpec.ParseLevel` | Sources/libslox/slox_parser.swift:131-177 | factor, term, comparison and equality each consume at least one token when they succeed |
| `ParseSpec.ParseExpression` | Sources/libslox/slox_parser.swift:179-181 | an expression consumes at least one token when it succeeds |
| `ParseSpec.ParsePrintStmt` | Sources/libslox/slox_parser.swift:194-198 | a print statement consumes at least one token |
| `ParseSpec.ParseExpressionStmt` | Sources/libslox/slox_parser.swift:216-220 | an expression statement consumes at least one token |
| `ParseSpec.ParseInitializer` | Sources/libslox/slox_parser.swift:205-209 | the optional `= expression` never moves backwards |
| `ParseSpec.ParseVarDeclaration` | Sources/libslox/slox_parser.swift:202-214 | a declaration consumes at least one token |
| `ParseSpec.NamedVarDeclaration` | Sources/libslox/slox_parser.swift:202-214 | proof step, one unfolding of `ParseVarDeclaration`: after the identifier, a declaration is the initializer's failure, or the `;` terminator following it |
| `ParseSpec.BlockItems` | Sources/libslox/slox_parser.swift:222-231 | a block body, with its closing brace, consumes at least one token |
| `ParseSpec.ParseStatement` | Sources/libslox/slox_parser.swift:183-192 | a statement consumes at least one token, so `parse` makes progress |
| `ParseSpec.ParseProgram` | Sources/libslox/slox_parser.swift:14-26 | by definition, `parse`'s loop: statements until EOF, appended in order, the first error ending the parse; `ProgramParsesAs` characterises it |
| `ParseSpec.StartsStatement` | Sources/libslox/slox_parser.swift:82-84 | by definition, the eight kinds of the `statementStart` list |
| `ParseSpec.AtBoundary` | Sources/libslox/slox_parser.swift:81-86 | by definition, `atStatementBoundary()`: the previous token is `;` or the current one starts a statement |
| `ParseSpec.SyncTarget` | Sources/libslox/slox_parser.swift:88-92 | recovery stops inside the list, strictly later unless it started on EOF |
| `ParseSpec.SyncFrom` | Sources/libslox/slox_parser.swift:89-91 | by definition, where the `repeat` loop ends once it has advanced onto a position: there if it is EOF or a boundary, else further on |
| `ParseSpec.SyncSkips` | Sources/libslox/slox_parser.swift:88-92 | proof step, one unfolding of `SyncFrom`: from a position that is neither EOF nor a boundary, recovery continues to the same place as from the next token |
| `ParseSpec.SyncTargetIsNextBoundary` | Sources/libslox/slox_parser.swift:81-92 | recovery stops at the first later token that is EOF, follows a `;`, or starts a statement, and passes over none of those |
| `Parsing.Parser.constructor` | Sources/libslox/slox_parser.swift:10-12 | a parser over an EOF-terminated list starts at token 0 |
| `Parsing.Parser.Peek` | Sources/libslox/slox_parser.swift:36-38 | the token at the cursor |
| `Parsing.Parser.IsAtEnd` | Sources/libslox/slox_parser.swift:40-42 | true exactly when the cursor is on EOF |
| `Parsing.Parser.Previous` | Sources/libslox/slox_parser.swift:44-46 | the token before the cursor |
| `Parsing.Parser.Advance` | Sources/libslox/slox_parser.swift:48-53 | it moves one token unless on EOF, and returns the token before the new cursor |
| `Parsing.Parser.Check` | Sources/libslox/slox_parser.swift:55-60 | true exactly when not at EOF and the token at the cursor has the same type, payloads ignored |
| `Parsing.Parser.Match` | Sources/libslox/slox_parser.swift:62-69 | when some option checks, it returns the token at the cursor and moves past it; otherwise none, cursor unchanged |
| `Parsing.Parser.Consume` | Sources/libslox/slox_parser.swift:71-77 | it takes the expected token and moves on, or fails with a parser error at the current token carrying the message, cursor unchanged |
| `Parsing.Parser.AtStatementBoundary` | Sources/libslox/slox_parser.swift:81-86 | true exactly when the previous token is `;` or the current one starts a statement |
| `Parsing.Parser.Synchronize` | Sources/libslox/slox_parser.swift:88-92 | after at least one advance the cursor rests at the next statement boundary or EOF |
| `Parsing.Parser.Primary` | Sources/libslox/slox_parser.swift:98-117 | result and cursor agree with `ParsePrimary` |
| `Parsing.Parser.Unary` | Sources/libslox/slox_parser.swift:120-128 | result and cursor agree with `ParseUnary` |
| `Parsing.Parser.Factor` | Sources/libslox/slox_parser.swift:131-141 | result and cursor agree with the factor level |
| `Parsing.Parser.Term` | Sources/libslox/slox_parser.swift:143-153 | result and cursor agree with the term level |
| `Parsing.Parser.Comparison` | Sources/libslox/slox_parser.swift:155-165 | result and cursor agree with the comparison level |
| `Parsing.Parser.Equality` | Sources/libslox/slox_parser.swift:167-177 | result and cursor agree with the equality level |
| `Parsing.Parser.Expression` | Sources/libslox/slox_parser.swift:179-181 | result and cursor agree with `ParseExpression` |
| `Parsing.Parser.StatementStmt` | Sources/libslox/slox_parser.swift:183-192 | result and cursor agree with `ParseStatement` |
| `Parsing.Parser.PrintStmt` | Sources/libslox/slox_parser.swift:194-198 | result and cursor agree with `ParsePrintStmt` |
| `Parsing.Parser.VarDeclarationStmt` | Sources/libslox/slox_parser.swift:202-214 | result and cursor agree with `ParseVarDeclaration` |
| `Parsing.Parser.Initializer` | Sources/libslox/slox_parser.swift:205-209 | result and cursor agree with `ParseInitializer` |
| `Parsing.Parser.ExpressionStmt` | Sources/libslox/slox_parser.swift:216-220 | result and cursor agree with `ParseExpressionStmt` |
| `Parsing.Parser.BlockStmt` | Sources/libslox/slox_parser.swift:222-231 | result and cursor agree with `BlockItems` |
| `Parsing.Parser.Parse` | Sources/libslox/slox_parser.swift:14-31 | the statements are returned exactly when the whole program parses; otherwise none, and the printed text is the first error's report |
| `Parsing.ParseTokens` | Sources/libslox/slox_parser.swift:10-31 | a fresh parser over the tokens returns the program's parse, or prints the error report and returns none |
| `ParseProperties.AnyCheckIsSomeOption` | Sources/libslox/slox_parser.swift:62-69 | `match` succeeds exactly when some option checks |
| `ParseProperties.PlainKindIn` | Sources/libslox/slox_parser.swift:55-69 | for a payload-free kind, matching is membership in the options |
| `ParseProperties.CheckFailsAtEnd` | Sources/libslox/slox_parser.swift:55-58 | nothing matches on EOF |
| `ParseProperties.OperatorRankOfLevel` | Sources/libslox/slox_parser.swift:131-177 | an operator of a level has that level's rank (factor 1, term 2, comparison 3, equality 4) |
| `ParseProperties.MatchedOperatorRank` | Sources/libslox/slox_parser.swift:131-177 | the token matched by a level's loop has that level's rank |
| `ParseProperties.GroupingShape` | Sources/libslox/slox_parser.swift:107-112 | a grouping is well precedenced and counts as an atom |
| `ParseProperties.PrimaryShape` | Sources/libslox/slox_parser.swift:98-117 | a primary is well precedenced and has no binary operator at its root |
| `ParseProperties.UnaryShape` | Sources/libslox/slox_parser.swift:120-128 | a unary is well precedenced with no binary root |
| `ParseProperties.OperandShape` | Sources/libslox/slox_parser.swift:131-177 | an operand of a level has a root at most as loose as the next tighter level |
| `ParseProperties.LoopShape` | Sources/libslox/slox_parser.swift:134-138 | each loop step builds a left-nested node whose left binds at least as tightly and whose right binds strictly more tightly |
| `ParseProperties.LevelShape` | Sources/libslox/slox_parser.swift:131-177 | each level's result is well precedenced with a root no looser than that level |
| `ParseProperties.ExpressionShape` | Sources/libslox/slox_parser.swift:179-181 | every parsed expression respects precedence and left associativity |
| `ParseProperties.KindsOf` | Sources/libslox/slox_parser.swift:98-181 | one kind per token |
| `ParseProperties.KindsOfAppend` | Sources/libslox/slox_parser.swift:98-181 | kinds of a concatenation are the concatenated kinds |
| `ParseProperties.KindsSplit` | Sources/libslox/slox_parser.swift:98-181 | a span's kinds split at any point between |
| `ParseProperties.OneKind` | Sources/libslox/slox_parser.swift:98-181 | a one-token span spells its token's kind |
| `ParseProperties.PlainKind` | Sources/libslox/scanner.swift:55-62 | for a payload-free kind, `sameType` is equality |
| `ParseProperties.ParenKinds` | Sources/libslox/slox_parser.swift:107-112 | a parenthesised span spells `(`, the inside, `)` |
| `ParseProperties.GroupingSpells` | Sources/libslox/slox_parser.swift:107-112 | a grouping's tree spells exactly the tokens from `(` through `)` |
| `ParseProperties.AtomSpells` | Sources/libslox/slox_parser.swift:99-105 | a literal or variable spells its one token |
| `ParseProperties.SingleCheck` | Sources/libslox/slox_parser.swift:62-69 | matching one option is checking it |
| `ParseProperties.PrimarySpells` | Sources/libslox/slox_parser.swift:98-117 | a primary's tree spells exactly the tokens it consumed |
| `ParseProperties.ParenSpells` | Sources/libslox/slox_parser.swift:107-112 | a primary opened by `(` spells the tokens from the `(` through its `)` |
| `ParseProperties.UnarySpells` | Sources/libslox/slox_parser.swift:120-128 | a unary's tree spells exactly the tokens it consumed |
| `ParseProperties.OperandSpells` | Sources/libslox/slox_parser.swift:131-177 | an operand's tree spells exactly the tokens it consumed |
| `ParseProperties.StepSpells` | Sources/libslox/slox_parser.swift:134-138 | an operator then an operand's span join into one span |
| `ParseProperties.LoopSpells` | Sources/libslox/slox_parser.swift:134-138 | the loop's tree spells the left operand followed by the tokens the loop consumed |
| `ParseProperties.LevelSpells` | Sources/libslox/slox_parser.swift:131-177 | a level's tree spells exactly the tokens it consumed |
| `ParseProperties.ExpressionSpells` | Sources/libslox/slox_parser.swift:179-181 | every parsed expression, printed back in infix order, is the token kinds it consumed, so no token is lost, added or reordered |
| `ParseProperties.RunEnd` | Sources/libslox/slox_parser.swift:120-128 | the run of prefix operators ends inside the list on a token that is neither `!` nor `-` |
| `ParseProperties.RunIsPrefixOperators` | Sources/libslox/slox_parser.swift:120-128 | every token of the run is `!` or `-`, and the tree nests the operand under them in order |
| `ParseProperties.UnaryIsPrefixedPrimary` | Sources/libslox/slox_parser.swift:120-128 | a unary is the primary after its run of `!`/`-` operators, wrapped in one Unary node per operator, and fails exactly when that primary fails |
| `ParseProperties.BlockItemsAreDeclarations` | Sources/libslox/slox_parser.swift:222-231 | a block only ever holds variable declarations, and keeps those already read |
| `ParseProperties.PrintStmtShape` | Sources/libslox/slox_parser.swift:194-198 | after `print`: the expression's error, or a Print of that expression ending after the `;` that follows it, or "Expect ';' after value" at the token found instead of `;` |
| `ParseProperties.ExpressionStmtShape` | Sources/libslox/slox_parser.swift:216-220 | the expression's error, or an Expression statement of it ending after the `;` that follows it, or "Expect ';' after expression" at the token found instead |
| `ParseProperties.VarDeclarationShape` | Sources/libslox/slox_parser.swift:202-214 | a token that is not an IDENTIFIER fails with "Expected Identifier" there; a successful declaration names `toks[pos]`, has an initializer exactly when `=` follows the name, that initializer being the expression parsed after the `=`, and ends on `;` |
| `ParseProperties.VarDeclarationOutcome` | Sources/libslox/slox_parser.swift:202-214 | with the name present, the exact outcome: after `=` the expression's error, or the declaration holding its tree when `;` follows it; without `=` the declaration without initializer when `;` follows the name; in either case a missing `;` fails with "Expect ';' after variable declaration." at the token found instead |
| `ParseProperties.BlockEndsWithBrace` | Sources/libslox/slox_parser.swift:224-230 | a block's item loop that succeeds has consumed the `}` as its last token |
| `ParseProperties.ClosedDeclarations` | Sources/libslox/slox_parser.swift:222-231 | `blockStmt` that succeeds read only declarations and ended on `}` |
| `ParseProperties.BraceStatement` | Sources/libslox/slox_parser.swift:187-188 | `{` starts a Block of the block items |
| `ParseProperties.PrintStatement` | Sources/libslox/slox_parser.swift:184-185 | a statement opened by `print` is a Print of the expression after the keyword, ending on `;` |
| `ParseProperties.BlockStatement` | Sources/libslox/slox_parser.swift:187-188 | a statement opened by `{` is a Block of declarations only, ending on `}` |
| `ParseProperties.ExpressionStatement` | Sources/libslox/slox_parser.swift:191 | a statement opened by any other token is an Expression statement of the expression there, ending on `;` |
| `ParseProperties.StatementShape` | Sources/libslox/slox_parser.swift:183-231 | the first token decides the statement (`print`, `{`, anything else), and a Print holds the expression parsed after `print` and an Expression statement the one parsed at its start, each ending on the `;` after it; a Block holds only declarations and ends on `}` |
| `ParseProperties.ProgramStep` | Sources/libslox/slox_parser.swift:17-20 | proof step, one unfolding of `ParseProgram`: `parse` reads one statement and goes on, or stops at its error |
| `ParseProperties.ProgramAccumulates` | Sources/libslox/slox_parser.swift:14-22 | the statements read so far are a prefix of the result, and the error does not depend on them |
| `ParseProperties.ProgramParsesAs` | Sources/libslox/slox_parser.swift:14-22 | a program parses to a list exactly when the tokens are those statements one after another up to EOF |
| `ParseExamples.NumberOperand` | Sources/libslox/slox_parser.swift:99-100 | a number is a literal unary of one token |
| `ParseExamples.OperatorCheck` | Sources/libslox/slox_parser.swift:62-69 | the level operators match exactly when the token is one of them |
| `ParseExamples.LoopStep` | Sources/libslox/slox_parser.swift:134-138 | an operator and its operand fold into a Binary with the tree so far on the left |
| `ParseExamples.LoopStop` | Sources/libslox/slox_parser.swift:134-140 | at EOF or a non-operator the loop returns the tree so far |
| `ParseExamples.LevelStart` | Sources/libslox/slox_parser.swift:131-132 | proof step, one unfolding of `ParseLevel`: a level starts its loop after its first operand |
| `ParseExamples.LevelsAtEnd` | Sources/libslox/slox_parser.swift:155-181 | a term ending at EOF is the whole expression |
| `ParseExamples.ProductOperand` | Sources/libslox/slox_parser.swift:131-141 | in `1 + 4 * 10` the right operand of `+` is the product |
| `ParseExamples.ProductBindsTighter` | Sources/UnitTests/ParserTests.swift:48 | `1 + 4 * 10` parses with the product on the right |
| `ParseExamples.ProductPrinted` | Sources/UnitTests/ParserTests.swift:48 | that tree prints `(+ 1 (* 4 10))` |
| `ParseExamples.ProductOnTheLeft` | Sources/UnitTests/ParserTests.swift:49 | `1 * 4 + 10` parses with the product on the left |
| `ParseExamples.ProductOnTheLeftPrinted` | Sources/UnitTests/ParserTests.swift:49 | that tree prints `(+ (* 1 4) 10)` |
| `ParseExamples.SubtractionFoldsLeft` | Sources/libslox/slox_parser.swift:143-153 | `1 - 2 - 3` folds to the left |
| `ParseExamples.UnaryErrorPropagates` | Sources/libslox/slox_parser.swift:131-181 | an error in the first unary is the expression's error |
| `ParseExamples.FirstStatementFails` | Sources/libslox/slox_parser.swift:14-26 | an expression statement whose expression fails makes the program fail with that error |
| `ParseExamples.MissingClosingParen` | Sources/libslox/slox_parser.swift:107-112 | `(1` then EOF fails with "Expected ')' after expression" at EOF |
| `ParseExamples.OpenParenPrimary` | Sources/libslox/slox_parser.swift:107-112 | `(` starts a grouping, a primary without unary operators |
| `ParseExamples.SingleStatementProgram` | Sources/libslox/slox_parser.swift:14-22 | one statement up to EOF is the whole program |
| `ParseExamples.NumberExpression` | Sources/libslox/slox_parser.swift:98-181 | a number before `;`, `)`, `}` or EOF is the whole expression |
| `ParseExamples.InitialisedDeclaration` | Sources/libslox/slox_parser.swift:202-214 | `name = e ;` declares name with initializer e |
| `ParseExamples.BlockItemStep` | Sources/libslox/slox_parser.swift:225-227 | proof step, one unfolding of `BlockItems`: inside a block every item is read as a declaration |
| `ParseExamples.BlockItemsClose` | Sources/libslox/slox_parser.swift:225-230 | `}` ends the block with the items read |
| `ParseExamples.DeclarationNeedsIdentifier` | Sources/libslox/slox_parser.swift:203 | a declaration must start with an identifier, else "Expected Identifier" at that token |
| `ParseExamples.FirstStatementError` | Sources/libslox/slox_parser.swift:14-26 | the first statement's error is the program's error |
| `ParseExamples.BareNumberIsRejected` | Sources/libslox/slox_parser.swift:216-220 | a NUMBER followed by EOF, the tokens of the test source `12`, fails with "Expect ';' after expression" at the EOF token |
| `ParseExamples.VarKeywordInBlockIsRejected` | Sources/libslox/slox_parser.swift:222-227 | `{ var` is rejected: block items start at the identifier, not at `var` |
| `ParseExamples.BareDeclarationInBlock` | Sources/libslox/slox_parser.swift:222-231 | `{ a = 1 ; }` parses to a Block holding one declaration of `a` |
| `EnvChain.Lookup` | Sources/libslox/environment.swift:38-48 | by definition, `get` over the chain: this scope's binding, else the parent's answer, else none; `LookupIsNearest` and `LookupFailsWhenUnbound` say what it finds |
| `EnvChain.Holder` | Sources/libslox/environment.swift:15-36 | the innermost scope defining the name, or none when no scope does |
| `EnvChain.Assigned` | Sources/libslox/environment.swift:15-36 | a successful assignment keeps the number of scopes |
| `EnvChain.Defined` | Sources/libslox/environment.swift:11-13 | defining writes the innermost scope only |
| `EnvChain.LookupIsNearest` | Sources/libslox/environment.swift:38-48 | lookup gives the value in the innermost scope holding the name |
| `EnvChain.LookupFailsWhenUnbound` | Sources/libslox/environment.swift:38-48 | lookup fails exactly when no scope holds the name |
| `EnvChain.AssignedTouchesOnlyHolder` | Sources/libslox/environment.swift:15-36 | assignment fails exactly when no scope holds the name; otherwise only the holder's entry changes |
| `EnvChain.AssignedCreatesNothing` | Sources/libslox/environment.swift:15-36 | assignment adds no name to, and removes none from, any scope |
| `EnvChain.GetAfterAssign` | Sources/libslox/environment.swift:15-48 | after assigning, looking the name up gives the new value and other names are unaffected |
| `EnvChain.HolderRespectsDomains` | Sources/libslox/environment.swift:15-36 | the holder depends only on which scopes hold the name |
| `EnvChain.DefineShadows` | Sources/libslox/environment.swift:11-13 | after defining, the name reads the new value, outer scopes are untouched and other names are unaffected |
| `Environments.UndefinedVariable` | Sources/libslox/environment.swift:46 | by definition, the runtime error `get` throws: the name's token and "Undefined variable '<name>'." |
| `Environments.UndefinedAssignment` | Sources/libslox/environment.swift:31-34 | by definition, the runtime error `assign` throws: the name's token and "Assigning to undefined variable '<name>'." |
| `Environments.Environment.AncestorsAreShallower` | Sources/libslox/environment.swift:2-9 | the parent chain is acyclic: every ancestor is valid and shallower |
| `Environments.Environment.Chain` | Sources/libslox/environment.swift:2-9 | the chain is this scope's values followed by the parent's chain, one map per scope |
| `Environments.Environment.constructor` | Sources/libslox/environment.swift:6-9 | a new scope is empty and sits in front of its parent's chain |
| `Environments.Environment.Define` | Sources/libslox/environment.swift:11-13 | the name now maps to the value in this scope; the chain changes as `Defined` says |
| `Environments.Environment.Get` | Sources/libslox/environment.swift:38-48 | returns the nearest binding, or "Undefined variable" for the name |
| `Environments.Environment.Assign` | Sources/libslox/environment.swift:15-36 | updates the scope holding the name, or fails with "Assigning to undefined variable" and leaves all scopes unchanged |

## Left out

- The evaluator (`evaluate()` on expressions and statements), `stmt.swift`'s behaviour, `callable.swift` and `slox.swift`'s driver are not part of this model. Neither are `main.swift` and the stub `Sources/scanner.swift`. The core here is the front end only.
- `Token.description` (the debugging rendering) is not modelled; it is output formatting only.
- The `Float` payload of NUMBER is not computed: a number token carries its lexeme. The printer only ever uses lexemes, and floating point is outside this model.
- I/O: `parse`'s `print(error.report())` becomes the out-parameter `printed`. `scanToken`'s `print(char)` on an invalid character is not modelled.
- The `Unrecognized error … abort()` branch of `parse` is unreachable, because every thrown error is a `LoxError`; it is not modelled.
- Swift's `isLetter`, which covers all of Unicode, is modelled as the ASCII letters only, since Dafny strings have no Unicode classes.
- `Variable` is used by `primary` but not declared in any file of `Sources/libslox`. Its display is modelled as its name's lexeme.
- `LoxError.RuntimeError` is thrown by `environment.swift` but not declared in `errors.swift`, so it is modelled as the separate `Environments.RuntimeError`.
- Primitive values are a type parameter of the environment.
- Swift traps (an empty string literal, a trailing lone quote) are modelled as the `Trapped` failure, not as a crash.
- String.Index values are modelled as plain character offsets, one per Unicode scalar. In Swift, `"\r\n"` is a single `Character`: it matches neither the whitespace case (scanner.swift:314) nor `== "\n"` (scanner.swift:142). So the source rejects CRLF input with "Invalid character" and does not count that line break, while the model skips `\r` and `\n` as two whitespace characters and counts the line. The model does not capture grapheme clusters.
- `Environments.Environment.constructor` always takes the parent explicitly; the source's default argument `parent: Environment? = nil` (environment.swift:6) is written as passing `null`.
- The parser is modelled only for token lists whose last token is EOF (`WellFormed`), which is what the scanner produces. On a list with no EOF at all, the source's `peek()` runs off the end of the array. A list with an EOF before a last token that is not EOF is outside the model; the source stops at that first EOF (slox_parser.swift:17 and 40-42), so `[EOF, PLUS]` parses to no statements.
- `Parsing.Parser.Synchronize` / `ParseSpec.SyncTarget`: their requires, `current > 0 || !AtEnd(tokens, current)` (and `pos > 0 || !AtEnd(toks, pos)`), leave out a cursor at 0 on a list whose first token is EOF. There `advance()` does not move and the following `previous()` reads `tokens[-1]`, which traps in Swift (slox_parser.swift:44-53 and 88-91). `Parsing.Parser.Advance` has the same requires for the same reason, and `Parsing.Parser.Previous` requires `current > 0`. The trap is not modelled as a `Trapped` failure, because nothing in slox_parser.swift calls `synchronize`.
- `Parsing.Parser.Primary`: like every parser method, its contract does not state where the cursor is left after a failure. No caller looks at it after an error, since `parse` returns at once.
- The `statementStart` array of `atStatementBoundary` is the predicate `StartsStatement`.
- `Scanning.Scanner.ScanTokens`: it states the tokens only on success. After a failure, the source's `tokens` array is abandoned, and the model does not state its contents.
