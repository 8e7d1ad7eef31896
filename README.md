# klox in Dafny

A model of the front-to-back pipeline of klox, a tree-walking interpreter for Lox written in
Kotlin. The pipeline has these stages:

- the scanner turns source text into tokens;
- a recursive-descent parser turns tokens into expressions;
- a static resolver tracks scopes and records variable hop counts;
- an evaluator executes expressions and statements;
- the evaluator runs over a chain of mutable environments;
- user functions and classes are the callable values;
- an error sink collects parse and runtime errors;
- two expression printers render expressions;
- two value types give source positions, offset-only and line/column.

Each Kotlin file keeps its own form:

- **Classes stay classes.** Mutable Kotlin objects are Dafny classes: `Scanner`, `Parser`,
  `Resolver`, `ErrorReporter`, `Environment`, `Interpreter`, `LoxFunction` and `LoxClass`. Their
  methods change fields named in `modifies` clauses. Each method is proved against a pure
  specification function:
  - the scanner against `ScanAt`/`LexTokens`;
  - the parser against the grammar predicate `Derives`;
  - the resolver against `DefineAll`, the resolution map `StmtLocals` and the error list
    `StmtErrors`, which search the scopes as written (`OutermostFrom`);
  - the evaluator against `EvalIn`/`ExecIn`/`ExecAllIn` over the environment chain, read as a
    sequence of frames (`Environment.Frames`).
- **Pure Kotlin stays pure.** The printers and the position types are functions and lemmas.
- **Exceptions become results.** Kotlin exceptions (`ParseError`, `RuntimeError`) are the `Err`
  case of a `Result`.

Modules: `Wrappers`, `Offset`, `Location`, `Tokens`, `Ast`, `ErrorReporter`, `Scanner`, `Parser`,
`ParserProperties`, `Resolver`, `Interpreter`, `Printer`.

Where the snapshot's parts disagree, the model follows the code:

- **Expression variants.** `Expr.kt` declares four variants. The other files use nine, and the
  `Expr` datatype has all nine.
- **Positions.** `Offset.kt` and `Location.kt` define the same names twice. The scanner and the
  error sink use the offset-only definitions, because `within` takes an `Offset`.
- **Line/column.** `Location.kt` stands as its own module.

## Model

| member | source | states |
|---|---|---|
| Offset.Offset.Increment | src/main/lox/Offset.kt:2 | the offset grows by exactly one, whatever the character |
| Offset.StartLocation | src/main/lox/Offset.kt:8 | the start cursor is offset 0 |
| Offset.At | src/main/lox/Offset.kt:6 | the character at the cursor's offset; the offset must lie inside the string |
| Offset.AtSpan | src/main/lox/Offset.kt:12-14 | the text of a span has length end - start and is that slice of the source, character by character |
| Offset.Point | src/main/lox/Offset.kt:16 | a point span starts and ends at the same cursor |
| Offset.PointIsEmpty | src/main/lox/Offset.kt:16 | the text of a point span is empty |
| Offset.AdjacentSpans | src/main/lox/Offset.kt:12-14 | the texts of two adjacent spans concatenate to the text of their union |
| Location.Location.Increment | src/main/lox/Location.kt:2-14 | as written: the offset grows by one; after a newline the column resets to 0 and the line stays put; otherwise the column and the line both grow by one |
| Location.Location.IncrementIntended | src/main/lox/Location.kt:2-14 | corrected: after a newline the line grows by one and the column resets to 0; otherwise only the column grows |
| Location.StartLocation | src/main/lox/Location.kt:20 | the start cursor is line 1, column 0, offset 0 |
| Location.At | src/main/lox/Location.kt:18 | the character at the cursor's offset |
| Location.AtSpan | src/main/lox/Location.kt:24-26 | the text of a span is the slice [start.offset, end.offset) and needs 0 <= start <= end <= length |
| Location.Point | src/main/lox/Location.kt:28 | a point span starts and ends at the same cursor |
| Location.PointIsEmpty | src/main/lox/Location.kt:28 | the text of a point span is empty |
| Location.LineCountInverted | src/main/lox/Location.kt:3-7 | as written, consuming "ab", which has no newline, leaves the cursor on line 3 |
| Location.AdvanceCountsLines | src/main/lox/Location.kt:2-14 | with the corrected increment, the cursor after text t is on line 1 + (newlines in t), at column (characters since the last newline) and at offset \|t\| |
| Location.AdvanceAgreesWithWithin | src/main/lox/ErrorReporter.kt:3-18 | the corrected cursor agrees with `within`'s line and column for every in-range offset, including the newline case |
| ErrorReporter.Scanned | src/main/lox/ErrorReporter.kt:9 | `within` scans offset + 1 characters, or none for a negative offset |
| ErrorReporter.Within | src/main/lox/ErrorReporter.kt:3-18 | an offset at or past the end is an error with the source's message; otherwise the line is 1 + the newlines in source[0..offset] inclusive and the column is the characters after the last of them minus one |
| ErrorReporter.WithinColumnAtNewline | src/main/lox/ErrorReporter.kt:10-12 | at a newline character, `within` reports column -1 |
| ErrorReporter.WithinBounds | src/main/lox/ErrorReporter.kt:7-16 | the newline count and the column together never exceed the scanned length |
| ErrorReporter.ErrorReporter.ParseError | src/main/lox/ErrorReporter.kt:58-60 | appends exactly one error to the parse list; the runtime list is untouched; afterwards `HadError` holds |
| ErrorReporter.ErrorReporter.RuntimeError | src/main/lox/ErrorReporter.kt:54-56 | appends only to the runtime list; afterwards `HadRuntimeError` holds and `HadError` is unchanged |
| ErrorReporter.ErrorReporter.constructor | src/main/lox/ErrorReporter.kt:44-52 | both lists start empty, so neither flag holds |
| ErrorReporter.ErrorReporter.DeduplicateErrors | src/main/lox/ErrorReporter.kt:63-73 | the loop returns exactly the errors the `Kept` rule keeps, in order, and never more than the input |
| ErrorReporter.DeduplicatedIsSubsequence | src/main/lox/ErrorReporter.kt:66-71 | de-duplication picks input errors at strictly increasing indices, and an index is picked exactly when its start offset is more than one past the previous error's start, counting dropped errors too |
| ErrorReporter.FirstErrorKept | src/main/lox/ErrorReporter.kt:64 | with a non-negative offset the first error is always kept, because the initial last offset is -2 |
| Scanner.DigitsEnd | src/main/lox/parser/Scanner.kt:165 | the end of the maximal digit run starting at an offset |
| Scanner.AlphaNumericEnd | src/main/lox/parser/Scanner.kt:174-176 | the end of the maximal run of letters, digits and underscores |
| Scanner.IndexOfFrom | src/main/lox/parser/Scanner.kt:152-154 | the first occurrence of the stop character at or after an offset, or the end |
| Scanner.CommentEnd | src/main/lox/parser/Scanner.kt:95 | the first star-slash at or after an offset, or the end |
| Scanner.Lowercase | src/main/lox/parser/Scanner.kt:178 | the lower-cased text has the same length and lower-cases every character |
| Scanner.ScanAt | src/main/lox/parser/Scanner.kt:46-118 | one lexeme always consumes at least one character and stays inside the source |
| Scanner.Scanner.ScanTokens | src/main/lox/parser/Scanner.kt:34-42 | the token list is the lexical rules' tokens for the whole source followed by one EOF token; the errors are the rules' errors; the cursor ends at the end |
| Scanner.Scanner.ScanToken | src/main/lox/parser/Scanner.kt:46-118 | one call consumes the lexeme `ScanAt` describes and appends its token or its error |
| Scanner.Scanner.SlashOrComment | src/main/lox/parser/Scanner.kt:91-101 | `//` skips to the newline, `/*` skips past star-slash (an unterminated comment is an error), otherwise a `/` token |
| Scanner.Scanner.BlockComment | src/main/lox/parser/Scanner.kt:94-97 | after slash-star, skips past the closing star-slash and emits nothing; at the end of input it reports "Unterminated comment." instead |
| Scanner.Scanner.StringLiteral | src/main/lox/parser/Scanner.kt:151-162 | a string runs to the closing quote and its value drops the quotes; without a closing quote it reports "Unterminated string." at the end |
| Scanner.Scanner.NumberLiteral | src/main/lox/parser/Scanner.kt:164-171 | a number token spans the digits plus an optional fraction that has at least one digit |
| Scanner.Scanner.IdentifierOrKeyword | src/main/lox/parser/Scanner.kt:173-179 | an identifier spans its alphanumeric run, and its kind is the keyword of its lower-cased text, or IDENTIFIER |
| Scanner.Scanner.SkipUntil | src/main/lox/parser/Scanner.kt:152-154 | the loop stops at the first stop character or the end |
| Scanner.Scanner.SkipToCommentEnd | src/main/lox/parser/Scanner.kt:95 | the loop stops at the first star-slash or at the end |
| Scanner.Scanner.SkipDigits | src/main/lox/parser/Scanner.kt:165 | the loop stops at the end of the digit run |
| Scanner.Scanner.Advance | src/main/lox/parser/Scanner.kt:127-131 | returns the character at the cursor and moves the cursor by one |
| Scanner.Scanner.Match | src/main/lox/parser/Scanner.kt:133-138 | consumes one character exactly when it is the expected one; false at the end of input |
| Scanner.Scanner.Peek | src/main/lox/parser/Scanner.kt:140-143 | the character at the cursor, or NUL at the end |
| Scanner.Scanner.PeekNext | src/main/lox/parser/Scanner.kt:145-148 | the character after the cursor, or NUL past the end |
| Scanner.Scanner.AddToken | src/main/lox/parser/Scanner.kt:185-188 | appends one token whose lexeme is the source from start to current |
| Scanner.Scanner.Pos | src/main/lox/parser/Scanner.kt:190 | the span from start to current |
| Scanner.LexTokensWellFormed | src/main/lox/parser/Scanner.kt:185-190 | every token's lexeme is its own span of the source and no token is EOF; spans come out in source order and do not overlap |
| Scanner.ExactlyOneEof | src/main/lox/parser/Scanner.kt:34-42 | the final list ends with one EOF token at the end offset and has no earlier EOF |
| Scanner.TwoCharacterOperators | src/main/lox/parser/Scanner.kt:59-89 | `!`, `=`, `<`, `>` followed by `=` give BANG_EQUAL, EQUAL_EQUAL, LESS_EQUAL, GREATER_EQUAL and consume two characters; otherwise BANG, EQUAL, LESS, GREATER and one character |
| Scanner.IdentifiersAreMaximal | src/main/lox/parser/Scanner.kt:173-179 | an identifier is a maximal alphanumeric run, and its kind is the keyword of its lower-cased text, if any |
| Scanner.KeywordsIgnoreCase | src/main/lox/parser/Scanner.kt:178 | "IF" and "If" are the `if` keyword, while "iff" is an identifier |
| Scanner.CharacterClasses | src/main/lox/parser/Scanner.kt:120-125 | the character classes are ASCII ranges: a digit is one of the ten digits, a letter or digit is below 128, and no character is both a digit and a letter |
| Scanner.KeywordsLower | src/main/lox/parser/Scanner.kt:15-32 | every keyword is a non-empty run of lower-case letters |
| Scanner.KeywordsFound | src/main/lox/parser/Scanner.kt:178-179 | the lookup of each keyword's lower-cased text finds that keyword |
| Scanner.KeywordsKinds | src/main/lox/parser/Scanner.kt:15-32 | no keyword maps to IDENTIFIER or EOF |
| Scanner.KeywordsDistinct | src/main/lox/parser/Scanner.kt:15-32 | no two keywords map to the same token kind |
| Scanner.NumberShape | src/main/lox/parser/Scanner.kt:164-171 | a number is a maximal digit run, optionally followed by `.` and at least one digit; a `.` with no digit after it is left unconsumed |
| Scanner.StringLiterals | src/main/lox/parser/Scanner.kt:151-162 | a terminated string's value is its lexeme without the quotes; an unterminated one reports exactly one error and adds no token |
| Scanner.CommentsAndWhitespaceAreSkipped | src/main/lox/parser/Scanner.kt:92-104 | whitespace emits nothing; a line comment emits nothing and stops in front of its newline |
| Scanner.UnexpectedCharacter | src/main/lox/parser/Scanner.kt:108-116 | an unrecognised character reports exactly one error, emits no token, and scanning resumes right after it |
| Scanner.LexStep | src/main/lox/parser/Scanner.kt:35-38 | one iteration of the scan loop moves one lexeme from the rest of the scan onto what was collected |
| Parser.Operators | src/main/lox/parser/Parser.kt:92-96 | no binary level's operators include EOF or a parenthesis |
| Parser.OperatorLevel | src/main/lox/parser/Parser.kt:92-96 | each token kind belongs to at most one binary level, and the level returned is that one |
| Parser.Parser.constructor | src/main/lox/parser/Parser.kt:6-7 | the cursor starts at the first token |
| Parser.Parser.Peek | src/main/lox/parser/Parser.kt:12 | the token at the cursor |
| Parser.Parser.Previous | src/main/lox/parser/Parser.kt:13 | the token before the cursor |
| Parser.Parser.Check | src/main/lox/parser/Parser.kt:15-18 | true exactly when the current token has the kind and is not EOF |
| Parser.Parser.Advance | src/main/lox/parser/Parser.kt:20-23 | moves by one unless on EOF, so it never passes the EOF token, and returns the token before the cursor |
| Parser.Parser.Match | src/main/lox/parser/Parser.kt:25-33 | advances by exactly one token when the current kind is one of the given kinds and is not EOF; otherwise the cursor is unchanged |
| Parser.Parser.Consume | src/main/lox/parser/Parser.kt:35-44 | on a match it returns the current token and advances; otherwise it reports one error at the current token and fails with the cursor unchanged |
| Parser.Parser.Synchronize | src/main/lox/parser/Parser.kt:46-56 | advances at least once unless on EOF, and stops just after a `;`, in front of a statement keyword, or at EOF; every token passed over is none of these |
| Parser.Parser.Parse | src/main/lox/parser/Parser.kt:58-70 | a result is a parse tree of exactly the tokens consumed; a failed parse gives None after one primary error; remaining tokens before EOF add the "Unknown tokens at the end of the input." error |
| Parser.Parser.Expression | src/main/lox/parser/Parser.kt:75-77 | a result derives the consumed tokens at the equality level; a failure adds exactly one error |
| Parser.Parser.BinaryLevel | src/main/lox/parser/Parser.kt:82-90 | the `binaryOp` loop builds a left-nested tree that derives the consumed tokens at its level; on success no operator of this or a tighter level follows |
| Parser.Parser.ExtendLevel | src/main/lox/parser/Parser.kt:84-88 | one loop iteration: on an operator of this level it consumes it and one tighter operand and extends the derivation; otherwise the cursor stays, in front of no operator of this level |
| Parser.Parser.Higher | src/main/lox/parser/Parser.kt:92-96 | each level's operands are parsed at the next tighter level, with `unary` below factor |
| Parser.Parser.Unary | src/main/lox/parser/Parser.kt:97-104 | `!` and `-` prefix a unary operand, recursing to the right; otherwise a primary |
| Parser.Parser.LiteralPrimary | src/main/lox/parser/Parser.kt:107-113 | false/true/nil become their literals and a NUMBER or STRING token its value, consuming that one token; any other token is left in place |
| Parser.Parser.Primary | src/main/lox/parser/Parser.kt:106-121 | a literal, or `(` expression `)`; otherwise exactly one error, and when nothing was consumed it is "Expected expression." |
| Parser.Parser.Group | src/main/lox/parser/Parser.kt:115-119 | after `(`, an expression and the closing `)` derive a grouping; a missing `)` reports exactly one error |
| Parser.BinaryStep | src/main/lox/parser/Parser.kt:85-87 | one loop iteration extends a derivation by an operator and a tighter operand |
| ParserProperties.OneLiteral | src/main/lox/parser/Parser.kt:106-113 | a single literal token has exactly one parse tree, its literal |
| ParserProperties.OneOperator | src/main/lox/parser/Parser.kt:82-96 | literal, operator, literal parses only at or looser than the operator's level, as the one binary node |
| ParserProperties.TwoOperators | src/main/lox/parser/Parser.kt:82-96 | in `a op1 b op2 c` the first operator groups first exactly when it binds at least as tightly as the second, so `a - b - c` is `(a - b) - c`; the parse tree is unique |
| ParserProperties.UnaryNestsRight | src/main/lox/parser/Parser.kt:97-104 | `!!x` parses only as `!(!x)` |
| Resolver.Mark | src/main/lox/analysis/Resolver.kt:27-40 | writing a flag keeps the stack depth and does nothing on an empty stack |
| Resolver.Defined | src/main/lox/analysis/Resolver.kt:36-40 | defining names adds exactly them to the scope |
| Resolver.DefineAll | src/main/lox/analysis/Resolver.kt:36-40 | defining names keeps the stack depth |
| Resolver.InnermostIndex | src/main/lox/analysis/Resolver.kt:134-140 | the innermost scope holding the name, with no holder above it, or None when no scope holds it |
| Resolver.OutermostFrom | src/main/lox/analysis/Resolver.kt:134-140 | the outermost holder at or above an index, with no holder below it, or None |
| Resolver.Resolver.constructor | src/main/lox/analysis/Resolver.kt:16-17 | an empty scope stack at top level with nothing recorded |
| Resolver.Resolver.BeginScope | src/main/lox/analysis/Resolver.kt:19-21 | pushes one empty scope |
| Resolver.Resolver.EndScope | src/main/lox/analysis/Resolver.kt:23-25 | pops the innermost scope |
| Resolver.Resolver.Declare | src/main/lox/analysis/Resolver.kt:27-34 | nothing at top level; otherwise the name is marked undefined in the innermost scope, and the redeclaration error is reported exactly when that scope already holds it |
| Resolver.Resolver.Define | src/main/lox/analysis/Resolver.kt:36-40 | nothing at top level; otherwise the name is marked defined in the innermost scope |
| Resolver.Resolver.ResolveLocalAsWritten | src/main/lox/analysis/Resolver.kt:134-140 | as written: the loop records the hop count of the outermost scope that holds the name, or nothing when none does |
| Resolver.Resolver.ResolveLocal | src/main/lox/analysis/Resolver.kt:134-140 | corrected: records the hop count of the innermost scope that holds the name, or nothing |
| Resolver.Resolver.ResolveExpr | src/main/lox/analysis/Resolver.kt:100-132 | scopes and function kind are unchanged; the resolution map becomes `ExprLocals` (every read and assignment, lambda bodies included, gets the as-written hop count) and the errors added are exactly `ExprErrors` (own-initializer reads, and each lambda's repeated parameters and body errors), in order |
| Resolver.Resolver.ResolvePair | src/main/lox/analysis/Resolver.kt:114-117 | the left operand is resolved before the right, for both the map and the errors |
| Resolver.Resolver.ResolveArguments | src/main/lox/analysis/Resolver.kt:121 | the arguments are resolved left to right: the map is `ArgLocals` and the errors `ArgErrors` |
| Resolver.Resolver.DeclareAndDefine | src/main/lox/analysis/Resolver.kt:92-93 | the parameter is declared, then defined, and the only error is the redeclaration error when the innermost scope already holds its name |
| Resolver.Resolver.DeclareParameters | src/main/lox/analysis/Resolver.kt:91-94 | every parameter ends up declared and defined in the innermost scope; one redeclaration error is reported, in order, for each parameter whose name that scope or an earlier parameter already has (`ParamErrors`) |
| Resolver.Resolver.ResolveFunction | src/main/lox/analysis/Resolver.kt:87-98 | the body is resolved in a new scope holding the parameters, under the given function kind; the scope stack and the enclosing kind are restored; the map is `FunctionLocals` and the errors are the parameter errors followed by the body's |
| Resolver.Resolver.ResolveStmt | src/main/lox/analysis/Resolver.kt:42-85 | only the innermost scope changes, by the names the statement binds (a block leaves the stack as it was); the map is `StmtLocals` and the errors added are exactly `StmtErrors` under the current function kind |
| Resolver.Resolver.ResolveBlock | src/main/lox/analysis/Resolver.kt:43-47 | the statements are resolved in a scope of their own, which is dropped afterwards |
| Resolver.Resolver.ResolveFunctionStmt | src/main/lox/analysis/Resolver.kt:57-61 | the name is declared (reporting a redeclaration) and defined before the body is resolved as a function |
| Resolver.Resolver.ResolveIf | src/main/lox/analysis/Resolver.kt:64-69 | the condition, then the then-branch, then the else-branch in the scope the then-branch left |
| Resolver.Resolver.ResolveVar | src/main/lox/analysis/Resolver.kt:49-55 | the name is declared (reporting a redeclaration first), the initializer is resolved while the name is undefined, and the name is defined afterwards |
| Resolver.Resolver.ResolveReturn | src/main/lox/analysis/Resolver.kt:72-77 | at top level "Can't return from top-level code." is reported before the value is resolved; inside a function only the value's errors |
| Resolver.Resolver.ResolveStatements | src/main/lox/analysis/Resolver.kt:142-146 | statements resolve in order, each in the scopes the earlier ones left; the map is `StmtsLocals` and the errors `StmtsErrors` |
| Resolver.Resolver.ResolveNext | src/main/lox/analysis/Resolver.kt:143-145 | one iteration of the loop extends the bindings, the map and the errors by one statement |
| Resolver.StatementsStep | src/main/lox/analysis/Resolver.kt:142-146 | one more statement adds its bindings, its map updates and its errors after those of the statements before it |
| Resolver.DefinePairStep | src/main/lox/analysis/Resolver.kt:27-40 | declare followed by define is define |
| Resolver.DefineNothing | src/main/lox/analysis/Resolver.kt:43-47 | defining no names leaves the stack as it was |
| Resolver.DefineCompose | src/main/lox/analysis/Resolver.kt:142-146 | defining two name sets one after the other is defining their union |
| Resolver.DeclaredUntilDefined | src/main/lox/analysis/Resolver.kt:101-104 | a declared name is "uninitialized" for reads until it is defined; other names are unaffected |
| Resolver.AsWrittenAgreesIffUnshadowed | src/main/lox/analysis/Resolver.kt:134-140 | the as-written and corrected searches agree exactly when no two scopes hold the name |
| Resolver.AsWrittenRecordsShadowedScope | src/main/lox/analysis/Resolver.kt:134-140 | with `a` declared in two nested scopes, as written the recorded hop is 1, where lexical scoping needs 0 |
| Resolver.PassRecordsShadowedScope | src/main/lox/analysis/Resolver.kt:43-55 | the whole pass on `{ var a; { var a; print a; } }` records hop 1 for the read, while the innermost holder is 0 hops away |
| Resolver.ExprKeepsOthers | src/main/lox/analysis/Resolver.kt:100-132 | resolving an expression changes no entry of the map except at its own reads and assignments, and adds none |
| Resolver.ArgKeepsOthers | src/main/lox/analysis/Resolver.kt:121 | the same for a call's arguments |
| Resolver.FunctionKeepsOthers | src/main/lox/analysis/Resolver.kt:87-98 | the same for a function body |
| Resolver.StmtKeepsOthers | src/main/lox/analysis/Resolver.kt:42-85 | the same for a statement |
| Resolver.StmtsKeepsOthers | src/main/lox/analysis/Resolver.kt:142-146 | the same for a statement list |
| Resolver.ExprRecordsEachSite | src/main/lox/analysis/Resolver.kt:100-140 | in a lambda-free expression every read and assignment ends up with the as-written hop count of its name in the current scopes, or keeps its old entry when no scope holds the name |
| Resolver.PairRecordsEachSite | src/main/lox/analysis/Resolver.kt:114-117 | the same for the two operands of a binary or logical expression, resolved left then right |
| Resolver.ArgRecordsEachSite | src/main/lox/analysis/Resolver.kt:119-122 | the same for the callee's arguments |
| Resolver.ParamNamesHold | src/main/lox/analysis/Resolver.kt:91-94 | a name is a parameter name exactly when some parameter has it |
| Resolver.ParamErrorsIffRepeated | src/main/lox/analysis/Resolver.kt:91-94 | declaring the parameters reports nothing exactly when no parameter name is already in the scope and no two parameters share a name |
| Resolver.RepeatedParameterReported | src/main/lox/analysis/Resolver.kt:27-34 | `fun f(a, a)` reports the second `a` once, at its position |
| Resolver.OwnInitializerReported | src/main/lox/analysis/Resolver.kt:49-55 | `var a = a;` in a local scope reports the read in its own initializer, after any redeclaration error; at top level it reports nothing |
| Resolver.LocalRedeclarationReported | src/main/lox/analysis/Resolver.kt:27-34 | `{ var a; var a; }` reports the second `a` once; at top level the same two declarations report nothing |
| Resolver.ReturnReportedOnlyAtTopLevel | src/main/lox/analysis/Resolver.kt:72-77 | `return;` is reported at top level, but not inside `fun f() { return; }`, whose body is resolved as a function |
| Interpreter.IsTruthy | src/main/lox/interpreter/Interpreter.kt:161-165 | false exactly for nil and false |
| Interpreter.IsEqual | src/main/lox/interpreter/Interpreter.kt:167-173 | nil equals only nil; otherwise equality of the values |
| Interpreter.CheckNumberOperands | src/main/lox/interpreter/Interpreter.kt:182-185 | succeeds exactly when both operands are numbers, else "Operands must be numbers" at the operator |
| Interpreter.ApplyUnary | src/main/lox/interpreter/Interpreter.kt:89-100 | `-` fails exactly on a non-number with "Operand must be a number."; `!` negates truthiness |
| Interpreter.ApplyBinary | src/main/lox/interpreter/Interpreter.kt:102-157 | `- * / > >= < <=` succeed exactly on two numbers; `+` adds two numbers or concatenates two strings and otherwise fails with its message; `!=` is the negation of `==` |
| Interpreter.Holder | src/main/lox/interpreter/Environment.kt:10-15 | the innermost frame holding a name, with no frame before it holding it, or None |
| Interpreter.Lookup | src/main/lox/interpreter/Environment.kt:10-18 | succeeds exactly when some frame holds the name, with the value of the innermost such frame; otherwise "Undefined variable '<name>'." at the name |
| Interpreter.Assigned | src/main/lox/interpreter/Environment.kt:24-32 | exactly the innermost frame holding the name is updated; every other frame is unchanged |
| Interpreter.EvalIn | src/main/lox/interpreter/Interpreter.kt:79-158 | evaluation keeps the number of frames |
| Interpreter.ExecIn | src/main/lox/interpreter/Interpreter.kt:25-41 | execution keeps the number of frames |
| Interpreter.ExecAllIn | src/main/lox/interpreter/Interpreter.kt:61-63 | running statements keeps the number of frames |
| Interpreter.LookupAfterDefine | src/main/lox/interpreter/Environment.kt:10-22 | after `define`, `get` on the same frame returns the new value, even over an earlier binding |
| Interpreter.LookupAfterAssign | src/main/lox/interpreter/Environment.kt:10-32 | after a successful `assign`, `get` returns the assigned value |
| Interpreter.HolderAfterAssign | src/main/lox/interpreter/Environment.kt:24-32 | `assign` changes no frame's names, so the innermost holder of the name stays the same |
| Interpreter.AssignmentYieldsAssignedValue | src/main/lox/interpreter/Interpreter.kt:83-87 | an assignment evaluates to the assigned value, which the variable then holds |
| Interpreter.ReadOnlyLeavesFrames | src/main/lox/interpreter/Interpreter.kt:79-158 | evaluating an expression without assignments changes no frame |
| Interpreter.OperandsBeforeTypeCheck | src/main/lox/interpreter/Interpreter.kt:103-104 | the left operand is evaluated first, then the right, and only then the types are checked: an operand's error wins over a type error |
| Interpreter.ExecAllAppend | src/main/lox/interpreter/Interpreter.kt:15-23 | statements run in order, and the first runtime error stops the rest |
| Interpreter.VarWithoutInitializerIsNil | src/main/lox/interpreter/Interpreter.kt:37-40 | `var x;` binds nil in the current frame only |
| Interpreter.BlockDeclarationIsLocal | src/main/lox/interpreter/Interpreter.kt:26 | a block's declarations live in its own frame; the enclosing frames are as before |
| Interpreter.BindingsBindEachParameter | src/main/lox/interpreter/LoxFunction.kt:13-15 | the call frame binds each parameter not repeated later to its own argument |
| Interpreter.Environment.constructor | src/main/lox/interpreter/Environment.kt:5-8 | a new environment holds no values and encloses the given one |
| Interpreter.Environment.Frames | src/main/lox/interpreter/Environment.kt:5-8 | the chain starts with this environment's own map |
| Interpreter.Environment.Get | src/main/lox/interpreter/Environment.kt:10-18 | the innermost binding along the chain, or "Undefined variable '<name>'." |
| Interpreter.Environment.Define | src/main/lox/interpreter/Environment.kt:20-22 | writes only this environment's map, overwriting; the enclosing chain is unchanged |
| Interpreter.Environment.Assign | src/main/lox/interpreter/Environment.kt:24-34 | succeeds exactly when some frame holds the name, and updates only the innermost such frame; otherwise the undefined-variable error, with every frame unchanged |
| Interpreter.Interpreter.constructor | src/main/lox/interpreter/Interpreter.kt:11-13 | a global environment with no enclosing one, and an empty error sink |
| Interpreter.Interpreter.Evaluate | src/main/lox/interpreter/Interpreter.kt:79-158 | agrees with `EvalIn` on the environment chain, both in value and in the frames afterwards |
| Interpreter.Interpreter.Execute | src/main/lox/interpreter/Interpreter.kt:25-41 | agrees with `ExecIn`; the current environment is the same afterwards |
| Interpreter.Interpreter.ExecuteBlock | src/main/lox/interpreter/Interpreter.kt:57-67 | agrees with `ExecAllIn` on the given environment, and restores the previous environment on both normal and error exit |
| Interpreter.Interpreter.Interpret | src/main/lox/interpreter/Interpreter.kt:15-23 | runs the statements in order, stops at the first runtime error, and reports it exactly once |
| Interpreter.Interpreter.EvaluateOrReport | src/main/lox/interpreter/Interpreter.kt:69-77 | the value, or None after reporting the runtime error once |
| Interpreter.LoxFunction.constructor | src/main/lox/interpreter/LoxFunction.kt:5-9 | keeps the declaration, the closure and the initializer flag |
| Interpreter.LoxFunction.Call | src/main/lox/interpreter/LoxFunction.kt:11-26 | the body runs in a new frame enclosing the closure, with the parameters bound; the result is the body's error, the closure's `this` for an initializer, and nil otherwise |
| Interpreter.LoxFunction.DefineParameters | src/main/lox/interpreter/LoxFunction.kt:13-15 | parameter i is bound to argument i, in order |
| Interpreter.LoxFunction.Bind | src/main/lox/interpreter/LoxFunction.kt:28-32 | a new function with the same declaration and flag, whose closure is a fresh frame binding `this` to the instance and enclosing the old closure; nothing existing is modified |
| Interpreter.LoxClass.FindMethod | src/main/lox/interpreter/LoxClass.kt:4 | a lookup in this class's own table only, None when absent |
| Interpreter.LoxClass.Arity | src/main/lox/interpreter/LoxClass.kt:12 | the arity of `init`, or 0 without one |
| Interpreter.LoxClass.Call | src/main/lox/interpreter/LoxClass.kt:6-10 | returns a fresh instance of this class; with `init`, it is first bound to the instance and called with the arguments, so the result is the body's error or the instance, the output is that of the body, and `init`'s closure ends with the frames the body left; without one nothing runs |
| Interpreter.LoxClass.RunInitializer | src/main/lox/interpreter/LoxClass.kt:8 | `bind` then `call`: the body runs with the parameter frame, then the `this` frame, then the closure; the result is the body's error, or the bound `this` for an initializer and nil otherwise, and the closure afterwards holds the frames the body left behind |
| Printer.PrettyPrintAll | src/main/lox/ast/Printer.kt:5 | one rendering per argument |
| Printer.PrintAll | src/main/lox/ast/Printer.kt:25 | one rendering per argument |
| Printer.PrettyPrintBalanced | src/main/lox/ast/Printer.kt:3-17 | the corrected `prettyPrint` closes every parenthesis it opens, given balanced atoms |
| Printer.PrettyPrintAllBalanced | src/main/lox/ast/Printer.kt:5 | every rendered call argument is balanced |
| Printer.PrettyPrintAsWrittenLeavesCallOpen | src/main/lox/ast/Printer.kt:5 | as written, `f()` renders as "f(", with one unclosed parenthesis |
| Printer.PrettyPrintAgreesWithoutCalls | src/main/lox/ast/Printer.kt:3-17 | the as-written and corrected `prettyPrint` agree on every call-free expression |
| Printer.PrettyPrintAsWrittenOpensPerCall | src/main/lox/ast/Printer.kt:3-17 | as written, with balanced atoms, `prettyPrint` leaves exactly one parenthesis open per call, so its output is balanced exactly when the expression has no call |
| Printer.PrettyPrintAllAsWrittenOpensPerCall | src/main/lox/ast/Printer.kt:5 | the rendered arguments leave open as many parentheses as they contain calls |
| Printer.JoinBalanced | src/main/lox/ast/Printer.kt:5 | `joinToString` with a balanced separator of balanced parts is balanced |
| Printer.JoinLength | src/main/lox/ast/Printer.kt:20 | `joinToString` has the parts' characters plus one separator between each consecutive pair |
| Printer.LiteralsPrintAlike | src/main/lox/ast/Printer.kt:7-11 | both printers render a literal alike: nil is "nil", a boolean "true" or "false", a string itself, a number through `toString` |
| Printer.PrintBalanced | src/main/lox/ast/Printer.kt:23-32 | `print` closes every parenthesis it opens, given balanced atoms |
| Printer.PrintAllBalanced | src/main/lox/ast/Printer.kt:25 | every rendered call argument is balanced |
| Printer.SexpBalanced | src/main/lox/ast/Printer.kt:19-21 | an s-expression of balanced parts is balanced |
| Printer.SharedForms | src/main/lox/ast/Printer.kt:6-14 | a grouping is "(" inner ")" in `prettyPrint` and "(group inner)" in `print`; nil is "nil" and a variable is its lexeme in both |
| Printer.PrintCompoundIsParenthesized | src/main/lox/ast/Printer.kt:23-32 | in `print`, everything but a literal or a variable is one parenthesised form |

## Left out

- `src/main/lox/Lox.kt`, the command-line driver, is not modelled. It does file reading, the
  REPL, console output and exit codes.
- **Console output.** A `print` statement appends the value to the interpreter's `output`
  sequence instead of printing it. `stringify` and `printAllErrors` are not modelled.
- **IEEE doubles.** Numbers are reals:
  - `Double.toString` and the `toString` of tokens are parameters of both printers;
  - `toDouble` in `number()` becomes an exact decimal value;
  - division by zero yields 0 where IEEE gives an infinity or NaN.
- `LoxError.display`, the caret rendering of errors, is not modelled.
- **Block comments.** The source never tests for the end of input inside a block comment and
  throws after `/*` with no close. Here that case stops at the end of the source and reports
  "Unterminated comment.".
- **Code the snapshot references but does not contain:**
  - `Interpreter.resolve` is not part of this model. The hop counts go into the resolver's own
    `locals` map.
  - `Interpreter.Return` is not part of this model. A body that ends normally is the only way
    out of a call, so the early-return branch of `LoxFunction.call` is not modelled.
  - `Environment.getAt(0, "this")` is read from the closure's own frame (`ThisIn`).
  - `LoxInstance` is a stub that holds only its class.
  - `ErrorReporter.error` is modelled as `ParseError` for the resolver and as `RuntimeError`
    for the interpreter.
- **Cases the source's `when` expressions do not cover are excluded by preconditions:**
  - a class statement in the resolver (`StmtClassFree`);
  - Call, Logical and Lambda in `evaluate` (`Evaluable`);
  - If, While, Function, Class, Return and Break in `execute` (`Executable`);
  - Lambda in both printers (`Printable`).
- Interpreter.LoxFunction.Call: requires at least as many arguments as parameters, because
  Kotlin's `arguments[i]` throws otherwise. Arity checking by callers is not part of the code
  shown.
- Interpreter.LoxFunction.Arity: it is the parameter count and carries no contract of its own.
  `LoxClass.Arity` states the arity of `init` in terms of it.
- Parser.Parser.Valid: it asks that the token list end with EOF, as the scanner's output always
  does. The constructor's precondition says so, where Kotlin would throw in `peek`.
- Parser.Parser.Advance: requires that the cursor is not on the first token while that token is
  EOF, where Kotlin's `previous()` would throw.
- `LoxCallable` is an interface with no behaviour. `Expr.kt`, `Stmt.kt` and `Function.kt` are
  datatypes without properties.
- Superclasses, `super` and the native `clock` are not modelled.
- Kotlin's 32-bit `Int`: offsets, lines and columns are unbounded integers. Overflow would need
  a source of 2^31 characters.
- **UTF-16.** A Kotlin `String` is a sequence of UTF-16 code units, and `length`, indexing and
  `substring` count code units. A Dafny `string` is a sequence of Unicode scalar values. Offsets,
  columns and lexeme slices therefore agree with Kotlin's only while the source has no character
  outside the Basic Multilingual Plane; such a character is one `char` here and two code units
  there.
- **Resolution map keys.** `Interpreter.resolve` is not part of this model. The `Expr` node
  classes are plain Kotlin classes, so a map keyed by them compares nodes by identity. The
  resolver's `locals` is a `map<Expr, nat>` keyed by value, so two structurally equal sites share
  one entry. Tokens carry their source positions, so this happens only when one node value occurs
  twice in a tree.
- **Hop-count search.** The pass runs `resolveLocal` as written (`ResolveLocalAsWritten`), so the
  resolution map records the outermost holder of a name. `ResolveLocal`, the innermost-holder
  search, is the corrected behaviour. `AsWrittenAgreesIffUnshadowed` proves they agree exactly when
  no two scopes hold the name. The interpreter, which would read the map, is not part of this model.

## Findings

| source | as written | input that shows it | evidently intended | confidence | as-written member | corrected member |
|---|---|---|---|---|---|---|
| src/main/lox/Location.kt:3-7 | the line stays put after a newline and grows by one after every other character | consuming "ab" from the start location gives line 3 | a newline starts the next line; other characters keep the line | not executed | Location.LineCountInverted | Location.AdvanceCountsLines |
| src/main/lox/analysis/Resolver.kt:134-140 | the downward loop has no break, so the last write is the outermost scope that holds the name | `a` declared in two nested scopes, read from the inner one: hop 1 is recorded | the innermost holder's hop count (0), as lexical scoping requires | not executed | Resolver.PassRecordsShadowedScope | Resolver.Resolver.ResolveLocal |
| src/main/lox/ast/Printer.kt:5 | a call renders its callee, "(" and the arguments with no closing ")" | `f()` renders as "f(" | "f()", with every parenthesis closed | not executed | Printer.PrettyPrintAsWrittenLeavesCallOpen | Printer.PrettyPrintBalanced |
