# pylox front end in Dafny

This project models the expression front end of `pylox`, a Python implementation of the Lox language:

- the character scanner, which turns source text into tokens;
- the recursive-descent expression parser, which turns tokens into an expression tree;
- the expression tree with its visitor dispatch;
- the tree-walking evaluator;
- the variable store;
- the Lisp-style tree printer.

It then proves properties of that model.

The scanner and the parser are imperative in the source, and are modelled that way. Each is a class (`Scanning.Scanner`, `Parsing.Parser`) whose cursor fields are updated in place by methods with `while` loops. Each method is proved to follow a pure function of the input and the old state:

- `ScanStep` and `ScanFrom` for the scanner;
- `ExpressionP` through `PrimaryP`, and `SyncFrom`, for the parser.

The properties are proved about those functions. The error callbacks of the scanner and the parser become fields that record every call (`errors`, `diagnostics`). Python exceptions become results:

- a parser rule either succeeds with the expression and the cursor after it, or fails with the token, the message, the exception kind and the cursor;
- the evaluator returns `Ok(value)`, or `Err` with a Lox `RuntimeError(token, message)` or a Python exception by name.

The environment is a class with a map field. The evaluator is the function `Evaluate` over the tree. The printer is the function `Printed`; the methods `Print` and `Parenthesize`, the latter with the `for` loop over the builder, are proved to return its text.

Files:

| file | what it holds |
|---|---|
| `tokens.dfy` | token types, runtime values, the token record |
| `runtime.dfy` | faults and results |
| `wrappers.dfy` | `Option` |
| `scanner.dfy` | the scanner |
| `scanner_properties.dfy` | scanner lemmas |
| `expr.dfy` | the tree, statement forms and visitor dispatch |
| `parser.dfy` | the parser |
| `parser_properties.dfy` | parser lemmas: precedence, failures, callback calls |
| `parser_reading.dfy` | parser lemmas: the reading order of the trees built |
| `parser_extent.dfy` | parser lemmas: where each binary level stops |
| `interpreter.dfy` | the evaluator |
| `interpreter_properties.dfy` | evaluator lemmas |
| `environment.dfy` | the variable store |
| `ast_printer.dfy` | the printer |
| `printer_properties.dfy` | printer lemmas |
| `pipeline_properties.dfy` | how scanner, parser, evaluator and printer fit together |

Modelling decisions that follow the code rather than its apparent intent:

- **Which `Expr` the modules see.** Line 2 of `pylox/parser/parser.py`, `pylox/interpreter/interpreter.py` and `pylox/parser/ast_printer.py` imports from `pylox/parser/productions.py`. That file is an earlier draft: its `Expr` is an empty class, it has four constructor-only node classes beside it, and it defines no `Visitor`. As written, this import breaks every module that uses it:
  - `interpreter.py` and `ast_printer.py` import `Visitor`, which the draft lacks, so loading them raises `ImportError`. So does loading `pylox/lox.py`, which imports both.
  - In `parser.py` the import succeeds, but `Expr` has no attribute `Binary`, `Unary`, `Literal` or `Grouping` (lines 67-120). The first node the parser builds therefore raises `AttributeError`, and `parse` does not catch it.
  - Every primary that succeeds builds a node. So as written, `parse` never returns a tree: it ends in that `AttributeError`, or in the `TypeError` of "Expect expression." before any node is built.

  The model reads these imports as naming the `Expr` of `pylox/parser/expr.py`. That class has the eight node classes nested in it and the `accept` dispatch that the three modules call.
- **Visit method names.** The evaluator and the printer name their visit methods `visit_binary` and so on, while `expr.py` dispatches to `visit_binary_expr` and so on. The model takes dispatch by variant as the meaning.
- **Missing visit methods.** A kind without a visit method ends in Python's `AttributeError`. The evaluator models this as `HostException("AttributeError")` and the printer as `None`.
- **`raise` in `primary`.** `primary` raises the return value of the error callback. The callback of `pylox/lox.py` returns `None`, so this is a `TypeError`, which `parse` does not catch. It is the parse outcome `Crashed`; a `ParseError` from `consume` gives `NoExpression`.
- **`previous()` at the start.** At cursor 0, `previous()` reads Python's `tokens[-1]`, the last token.
- **The `o` branch of the scanner.** `o` not followed by `r` is dropped without a token or an error.
- **Equality.** `is_equal` uses Python's `==`, under which `True == 1.0` and `False == 0.0` hold. The model keeps this cross-kind equality.
- **Division by zero.** `/` by zero raises Python's `ZeroDivisionError`, modelled as `HostException("ZeroDivisionError")`.
- **Unknown operators.** A unary or binary operator that `visit_unary` or `visit_binary` does not handle falls off the end of the method and yields `None`, modelled as `nil`.
- **Evaluation order.** `visit_binary` evaluates the right operand before the left one.

## Model

| member | source | states |
|---|---|---|
| Scanning.AlnumEnd | pylox/scanner/scanner.py:98-100 | the identifier loop stops at the first character that is not a letter, digit or `_`, and every character it passes is one |
| Scanning.KeywordType | pylox/scanner/scanner.py:15-32 | definition: the type the keyword table gives a word, and `IDENTIFIER` for any other word, as `keywords.get(text, IDENTIFIER)` on line 103; stated for scanned words in `ScanningProperties.IdentifierToken` |
| Scanning.IsAlpha | pylox/scanner/scanner.py:157-160 | definition: an ASCII letter or `_` |
| Scanning.IsAlphanumeric | pylox/scanner/scanner.py:163-164 | definition: `IsAlpha` or `IsDigit` |
| Scanning.IsDigit | pylox/scanner/scanner.py:167-168 | definition: one of `0` to `9` |
| Scanning.DigitsEnd | pylox/scanner/scanner.py:108-109 | the digit loop stops at the first non-digit (or the end), and every character it passes is a digit |
| Scanning.NumberEnd | pylox/scanner/scanner.py:107-116 | a number spans only digits and `.`, and never extends past the source |
| Scanning.ScanUntil | pylox/scanner/scanner.py:76-78 | a run that stops at a given character (`\n` for this comment loop, `"` for the string loop of lines 122-124) ends at the first such character or at the end, and contains none |
| Scanning.OperatorStep | pylox/scanner/scanner.py:67-74 | a one- or two-character operator consumes at least one character and stays inside the source |
| Scanning.SlashStep | pylox/scanner/scanner.py:75-80 | the `/` branch consumes at least one character and stays inside the source |
| Scanning.StringStep | pylox/scanner/scanner.py:121-133 | the string branch consumes at least one character and stays inside the source |
| Scanning.NumberStep | pylox/scanner/scanner.py:107-118 | the number branch consumes at least one character and stays inside the source |
| Scanning.OStep | pylox/scanner/scanner.py:89-91 | the `o` branch consumes at least one character and stays inside the source |
| Scanning.IdentifierStep | pylox/scanner/scanner.py:98-104 | the identifier branch consumes at least one character and stays inside the source |
| Scanning.ScanStep | pylox/scanner/scanner.py:44-95 | every call of `scan_token` consumes at least one character and stays inside the source, so the scanning loop terminates |
| Scanning.ScanFrom | pylox/scanner/scanner.py:35-38 | definition: the `while not is_at_end()` loop as `ScanStep` repeated from the cursor to the end, collecting tokens, spans, errors and the final line; its properties are `ScanningProperties.ScanFromFacts` |
| Scanning.Tokenize | pylox/scanner/scanner.py:35-41 | definition: the tokens of `ScanFrom` from cursor 0 and line 1, then the EOF token on the final line; its properties are `ScanningProperties.TokenizeEndsWithEof` and `TokenizeSpans` |
| Scanning.Scanner.IsAtEnd | pylox/scanner/scanner.py:171-172 | definition: the cursor is at or past the end of the source |
| Scanning.Scanner.Peek | pylox/scanner/scanner.py:145-148 | definition: the character at the cursor, or `'\0'` at the end (through `CharAt`) |
| Scanning.Scanner.PeekNext | pylox/scanner/scanner.py:151-154 | definition: the character after the cursor, or `'\0'` when that is past the end (through `CharAt`) |
| Scanning.Scanner.constructor | pylox/scanner/scanner.py:8-14 | a new scanner has no tokens and no errors, `start = current = 0` and `line = 1` |
| Scanning.Scanner.Advance | pylox/scanner/scanner.py:175-178 | returns the character at the cursor and moves the cursor by one |
| Scanning.Scanner.Match | pylox/scanner/scanner.py:136-142 | succeeds, and consumes one character, exactly when the next character is the expected one |
| Scanning.Scanner.AddToken | pylox/scanner/scanner.py:181-183 | appends one token whose lexeme is `source[start:current]`, on the current line |
| Scanning.Scanner.ScanIdentifier | pylox/scanner/scanner.py:98-104 | the loop over alphanumerics takes the object to the state `IdentifierStep` describes |
| Scanning.Scanner.SkipDigits | pylox/scanner/scanner.py:108-109 | the digit loop leaves the cursor where `DigitsEnd` says |
| Scanning.Scanner.ScanNumber | pylox/scanner/scanner.py:107-118 | `number()` takes the object to the state `NumberStep` describes |
| Scanning.Scanner.ScanString | pylox/scanner/scanner.py:121-133 | `string()` takes cursor, line, tokens and errors to the state `StringStep` describes |
| Scanning.Scanner.ScanToken | pylox/scanner/scanner.py:44-66 | `scan_token()` takes cursor, line, tokens and errors to the state `ScanStep` describes |
| Scanning.Scanner.ScanLonger | pylox/scanner/scanner.py:67-84 | the operator, slash, comment and whitespace branches follow `ScanStep` |
| Scanning.Scanner.ScanLiteralOrWord | pylox/scanner/scanner.py:85-95 | the string, number, `o`, identifier and unexpected-character branches follow `ScanStep` |
| Scanning.Scanner.ScanTurn | pylox/scanner/scanner.py:36-38 | one loop turn moves the cursor forward and keeps what remains to be scanned consistent with `ScanFrom` |
| Scanning.Scanner.ScanTokens | pylox/scanner/scanner.py:35-41 | `scan_tokens()` ends at the end of the source with the tokens and errors of `ScanFrom` plus one EOF token, and returns the token list |
| Scanning.ScanSource | pylox/lox.py:50-51 | a fresh scanner over a text returns `Tokenize` of that text and reports the errors of `ScanFrom` |
| ScanningProperties.StepFacts | pylox/scanner/scanner.py:44-95 | each `scan_token` consumes at least one character, adds at most one token or one error, gives each token the consumed text as lexeme, and counts every newline it consumes once |
| ScanningProperties.StringStepGood | pylox/scanner/scanner.py:121-133 | the string branch counts the newlines inside the string and gives its token the consumed text |
| ScanningProperties.NumberStepGood | pylox/scanner/scanner.py:107-118 | the number branch meets the same step guarantees, and consumes no newline |
| ScanningProperties.IdentifierStepGood | pylox/scanner/scanner.py:98-104 | the identifier branch meets the same step guarantees, and consumes no newline |
| ScanningProperties.SlashStepGood | pylox/scanner/scanner.py:75-80 | the slash and comment branch meets the same step guarantees; a comment leaves its newline unconsumed |
| ScanningProperties.ScanFromFacts | pylox/scanner/scanner.py:35-38 | the loop gives one span per token; each lexeme is the source text of its span; spans are in source order and do not overlap; the final line is the start line plus the newlines scanned |
| ScanningProperties.TokenizeEndsWithEof | pylox/scanner/scanner.py:35-41 | the list ends with exactly one EOF token, with empty lexeme, no literal and line 1 plus the number of newlines in the source |
| ScanningProperties.TokenizeSpans | pylox/scanner/scanner.py:35-41 | every token before EOF has as lexeme the text of its own span; spans are ordered and disjoint; a token's line is 1 plus the newlines up to the end of its span |
| ScanningProperties.OperatorLookahead | pylox/scanner/scanner.py:67-74 | `!`, `=`, `<`, `>` give the two-character token, consuming the `=`, exactly when `=` follows, and the one-character token otherwise |
| ScanningProperties.CommentProducesNoToken | pylox/scanner/scanner.py:75-78 | `//` adds no token or error and consumes up to, not including, the next newline |
| ScanningProperties.LoneSlash | pylox/scanner/scanner.py:79-80 | a `/` not followed by `/` is one SLASH token |
| ScanningProperties.WhitespaceProducesNoToken | pylox/scanner/scanner.py:81-84 | space, `\r` and `\t` are skipped; a newline is skipped and counted |
| ScanningProperties.ClosedString | pylox/scanner/scanner.py:121-133 | a string with a closing quote is one STRING token whose lexeme includes both quotes and whose literal is the text strictly between them |
| ScanningProperties.UnterminatedString | pylox/scanner/scanner.py:126-128 | a string without a closing quote consumes the rest of the source, adds no token and reports "Unterminated string." |
| ScanningProperties.NumberLexemeShape | pylox/scanner/scanner.py:107-116 | a number lexeme is digits, optionally followed by `.` and digits |
| ScanningProperties.NumberToken | pylox/scanner/scanner.py:107-118 | a number is the longest such lexeme; a `.` without a digit after it is not consumed; the literal is the value of the lexeme |
| ScanningProperties.IdentifierToken | pylox/scanner/scanner.py:98-104 | an identifier is the longest alphanumeric run, typed by the keyword table or as IDENTIFIER |
| ScanningProperties.OrFromO | pylox/scanner/scanner.py:89-91 | `o` followed by `r` is an OR token with lexeme "or" |
| ScanningProperties.ODropped | pylox/scanner/scanner.py:89-91 | `o` followed by anything else adds no token and no error |
| ScanningProperties.UnexpectedCharacter | pylox/scanner/scanner.py:94-95 | any other character reports "Unexpected character." on the current line, and scanning goes on after it |
| Ast.Accept | pylox/parser/expr.py:48-135 | definition: each of the eight node kinds calls the visitor's method for its own kind with the node itself; the dispatch is checked against the kind table `MethodFor` by `Ast.AcceptDispatchesToOwnMethod` and `Ast.DispatchSeparatesKinds` |
| Ast.AcceptDispatchesToOwnMethod | pylox/parser/expr.py:48-135 | `accept` calls exactly its own kind's visit method, with the node itself, and returns that method's result |
| Ast.DispatchSeparatesKinds | pylox/parser/expr.py:13-45 | two nodes go to the same visit method exactly when they are of the same kind; `Logical` and `Binary` differ |
| Parsing.Advanced | pylox/parser/parser.py:40-46 | `advance` moves the cursor by one except at EOF, where it stays, so the cursor never passes the EOF token |
| Parsing.AtEnd | pylox/parser/parser.py:45-46 | definition: the token at the cursor is EOF |
| Parsing.CheckAt | pylox/parser/parser.py:35-38 | definition: false at EOF, and otherwise whether the token at the cursor has the given type |
| Parsing.MatchesAny | pylox/parser/parser.py:23-28 | definition: whether `match(*types)` succeeds at the cursor, that is, whether `check` holds for one of the types; `Parsing.Parser.Match` is proved to consume a token exactly then |
| Parsing.PreviousAt | pylox/parser/parser.py:51-52 | definition: the token before the cursor, and at cursor 0 the last token, as Python's index -1 gives |
| Parsing.ExpressionP | pylox/parser/parser.py:58-59 | `expression()` stays inside the token list, moves the cursor forward on success, and a failure names the token at its cursor |
| Parsing.BinaryP | pylox/parser/parser.py:61-99 | each binary level stays inside the token list and consumes at least one token on success |
| Parsing.OperandP | pylox/parser/parser.py:62-96 | the operand rule of each level stays inside the token list and consumes at least one token on success |
| Parsing.BinaryLoop | pylox/parser/parser.py:64-67 | the operator loop of each level stays inside the token list |
| Parsing.UnaryP | pylox/parser/parser.py:101-107 | `unary()` stays inside the token list and consumes at least one token on success |
| Parsing.PrimaryP | pylox/parser/parser.py:109-122 | `primary()` stays inside the token list and consumes at least one token on success |
| Parsing.GroupP | pylox/parser/parser.py:117-120 | the parenthesised branch stays inside the token list |
| Parsing.Outcome | pylox/parser/parser.py:17-21 | `parse` returns the expression on success, `None` exactly after a `ParseError`, and lets the `TypeError` escape |
| Parsing.SyncLoop | pylox/parser/parser.py:127-143 | the loop stops at the first boundary: EOF, just after `;`, or before a statement keyword |
| Parsing.SyncFrom | pylox/parser/parser.py:124-143 | `synchronize` advances once, then stops at the first boundary after that and never passes EOF |
| Parsing.Parser.constructor | pylox/parser/parser.py:12-15 | a new parser starts at cursor 0 with no diagnostics |
| Parsing.Parser.Peek | pylox/parser/parser.py:48-49 | definition: the token at the cursor, which `Valid` keeps inside the list |
| Parsing.Parser.Previous | pylox/parser/parser.py:51-52 | definition: `PreviousAt` of the cursor, the token before it, or Python's `tokens[-1]` (the last token) at cursor 0 |
| Parsing.Parser.IsAtEnd | pylox/parser/parser.py:45-46 | `is_at_end()` on the parser object is `AtEnd` at its cursor |
| Parsing.Parser.Check | pylox/parser/parser.py:35-38 | `check(t)` on the parser object is `CheckAt` at its cursor, so it is false at EOF whatever `t` is |
| Parsing.Parser.Advance | pylox/parser/parser.py:40-43 | the cursor becomes `Advanced`, and the result is `previous()` |
| Parsing.Parser.Match | pylox/parser/parser.py:23-28 | succeeds, and consumes one token, exactly when the current token is not EOF and its type is one of those given; otherwise nothing changes |
| Parsing.Parser.Error | pylox/parser/parser.py:54-56 | one callback call with the token and message, and a `ParseError` |
| Parsing.Parser.Consume | pylox/parser/parser.py:30-33 | returns and consumes the current token when its type matches; otherwise one callback call at `peek()` with the message and no movement |
| Parsing.Parser.Expression | pylox/parser/parser.py:58-59 | follows `ExpressionP`, and reports exactly the callback call of a failure |
| Parsing.Parser.Equality | pylox/parser/parser.py:61-69 | follows `BinaryP` at the equality level |
| Parsing.Parser.Comparison | pylox/parser/parser.py:71-79 | follows `BinaryP` at the comparison level |
| Parsing.Parser.Term | pylox/parser/parser.py:81-89 | follows `BinaryP` at the term level |
| Parsing.Parser.Factor | pylox/parser/parser.py:91-99 | follows `BinaryP` at the factor level |
| Parsing.Parser.LevelLoop | pylox/parser/parser.py:64-67 | the `while self.match(...)` loop of a level follows `BinaryLoop` |
| Parsing.Parser.LevelTurn | pylox/parser/parser.py:65-67 | one loop turn takes the operator as `previous()` and the next operand; the tree so far becomes its left operand |
| Parsing.Parser.Operand | pylox/parser/parser.py:62-96 | the operand of each level is parsed by the next tighter rule, as `OperandP` says |
| Parsing.Parser.Unary | pylox/parser/parser.py:101-107 | follows `UnaryP` |
| Parsing.Parser.Primary | pylox/parser/parser.py:109-122 | follows `PrimaryP`, including the callback call before `raise None` |
| Parsing.Parser.Group | pylox/parser/parser.py:117-120 | follows `GroupP` |
| Parsing.Parser.Parse | pylox/parser/parser.py:17-21 | the outcome is `Outcome` of `expression()`, with the callback calls that `expression()` made |
| Parsing.Parser.Synchronize | pylox/parser/parser.py:124-143 | the cursor ends where `SyncFrom` says |
| Parsing.ParseTokens | pylox/lox.py:53-55 | a fresh parser over a token list gives `Outcome` of `ExpressionP` from 0 and its callback calls |
| ParsingProperties.ExpressionLayered | pylox/parser/parser.py:58-99 | every tree `expression()` builds respects the precedence levels |
| ParsingProperties.BinaryLayered | pylox/parser/parser.py:61-99 | a level's rule builds no operator looser than that level at the top |
| ParsingProperties.OperandLayered | pylox/parser/parser.py:62-96 | a level's operands contain only tighter operators outside parentheses |
| ParsingProperties.LoopLayered | pylox/parser/parser.py:64-67 | the loop keeps the tree layered, putting the tree so far on the left |
| ParsingProperties.UnaryLayered | pylox/parser/parser.py:101-107 | `unary()` builds a prefix chain over a primary |
| ParsingProperties.PrimaryLayered | pylox/parser/parser.py:109-122 | `primary()` builds a literal or a grouping |
| ParsingProperties.GroupLayered | pylox/parser/parser.py:117-120 | parentheses hold a full expression |
| ParsingOrder.ExpressionReads | pylox/parser/parser.py:58-122 | reading order: for every well-formed token list and cursor, the tree `expression()` builds reads, left to right, exactly as the tokens it consumed: each literal as its payload, each operator as its own token, each grouping inside its two parentheses |
| ParsingOrder.BinaryReads | pylox/parser/parser.py:61-99 | each binary level's tree reads exactly as the tokens it consumed |
| ParsingOrder.OperandReads | pylox/parser/parser.py:62-96 | each level's operand reads exactly as the tokens it consumed |
| ParsingOrder.LoopReads | pylox/parser/parser.py:64-67 | the operator loop, entered with a tree that reads as the tokens before it, ends with a tree that reads as every token consumed since the level began |
| ParsingOrder.TurnReads | pylox/parser/parser.py:65-67 | one loop turn puts the tree so far on the left, then the operator token, then the new operand, matching the token order |
| ParsingOrder.UnaryReads | pylox/parser/parser.py:101-107 | a prefix chain reads as its operator tokens followed by its primary |
| ParsingOrder.PrimaryReads | pylox/parser/parser.py:109-122 | a primary reads as its one literal token, or as `(`, the inner expression's tokens and `)` |
| ParsingOrder.GroupReads | pylox/parser/parser.py:117-120 | a grouping reads as the `(`, the inner expression's tokens and the `)` that `consume` takes |
| ParsingExtent.ExpressionStops | pylox/parser/parser.py:58-99 | how far the parse goes: after a successful `expression()`, the next token is no operator of any binary level, so every loop has folded every operator that followed it |
| ParsingExtent.BinaryStops | pylox/parser/parser.py:61-99 | a level's rule stops only in front of a token that is no operator of its own level or of a tighter one |
| ParsingExtent.OperandStops | pylox/parser/parser.py:62-96 | a level's operand stops only in front of a token that is no operator of a strictly tighter level |
| ParsingExtent.LoopStops | pylox/parser/parser.py:64-67 | the `while self.match(...)` loop, entered where the tighter levels have stopped, ends only where its own `match` fails as well |
| ParsingProperties.LayeredWeakens | pylox/parser/parser.py:58-99 | a tree allowed at a tighter level is allowed at any looser one |
| ParsingProperties.NoSameLevelOnTheRight | pylox/parser/parser.py:61-99 | left association: a node of a level never has a node of the same level as its direct right operand |
| ParsingProperties.TighterBelow | pylox/parser/parser.py:58-99 | precedence: a binary node's left child binds at least as tightly as it does, and its right child strictly more tightly |
| ParsingProperties.UnaryPrefix | pylox/parser/parser.py:101-107 | `!` and `-` apply to the whole following unary, and a failure there is the failure of the whole |
| ParsingProperties.PrimaryLiteral | pylox/parser/parser.py:110-115 | `false`, `true`, `nil` are literals of those values; a number or string token is a literal of its own literal; each consumes one token |
| ParsingProperties.PrimaryParenthesized | pylox/parser/parser.py:117-120 | `( e )` is `Grouping(e)` ending after the `)`; without the `)`, "Expect ')' after expression" at the token found instead |
| ParsingProperties.ExpectExpressionIff | pylox/parser/parser.py:109-122 | `primary()` reports "Expect expression." at its own token, with the `TypeError`, exactly when that token starts no primary |
| ParsingProperties.FailureMessages | pylox/parser/parser.py:109-122 | every failure of `expression()` is the `ParseError` for a missing `)` or the `TypeError` of "Expect expression." |
| ParsingProperties.BinaryFailure | pylox/parser/parser.py:61-99 | the same holds for every binary level |
| ParsingProperties.OperandFailure | pylox/parser/parser.py:62-96 | the same holds for every operand rule |
| ParsingProperties.LoopFailure | pylox/parser/parser.py:64-67 | the same holds for every operator loop |
| ParsingProperties.UnaryFailure | pylox/parser/parser.py:101-107 | the same holds for `unary()` |
| ParsingProperties.ParseReports | pylox/parser/parser.py:17-21 | a parse that succeeds made no callback call; one returning `None` made exactly one, for the missing `)`; one that crashes made exactly one, "Expect expression." |
| ParsingProperties.NumberFactor | pylox/parser/parser.py:91-99 | a number not followed by `*` or `/` is a complete factor |
| ParsingProperties.TermIsExpressionAtEof | pylox/parser/parser.py:58-79 | a term that ends just before EOF is the whole expression |
| ParsingProperties.MinusIsLeftAssociative | pylox/parser/parser.py:81-89 | `a - b - c` parses as `(a - b) - c` and ends at EOF |
| ParsingProperties.DoubleBang | pylox/parser/parser.py:101-107 | `!!true` parses as `!(!true)` |
| Interpreting.IsTruthy | pylox/interpreter/interpreter.py:33-36 | definition: `nil` is falsey, a boolean is itself, anything else is truthy; proved as `InterpretingProperties.TruthyUnlessNilOrFalse` |
| Interpreting.PyEquals | pylox/interpreter/interpreter.py:42 | definition: Python's `==` on two runtime values, including `True == 1.0` and `False == 0.0` |
| Interpreting.IsEqual | pylox/interpreter/interpreter.py:38-42 | definition: two `nil`s are equal, `nil` equals nothing else, and otherwise Python's `==`; characterised by `InterpretingProperties.EqualityCases` |
| Interpreting.CheckNumberOperand | pylox/interpreter/interpreter.py:44-46 | definition: the number, or "Operand must be a number." on the operator token; used by `UnaryOp` |
| Interpreting.CheckNumberOperands | pylox/interpreter/interpreter.py:48-51 | definition: both numbers, or "Operand must be a number." on the operator token; used by `BinaryOp` |
| Interpreting.Divide | pylox/interpreter/interpreter.py:106-108 | definition: Python's float `/`, with `ZeroDivisionError` for a zero divisor; stated in `InterpretingProperties.NumericOperatorsNeedNumbers` and `NumericResults` |
| Interpreting.NumberOp | pylox/interpreter/interpreter.py:79-112 | definition: `>`, `>=`, `<`, `<=`, `-`, `/` and `*` on two numbers once `check_number_operands` has passed; stated in `InterpretingProperties.NumericResults` |
| Interpreting.UnaryOp | pylox/interpreter/interpreter.py:59-67 | definition: `visit_unary` after its operand is evaluated, `nil` for an operator it does not handle; proved in `InterpretingProperties.UnaryCases` and `OperatorsBlameThemselves` |
| Interpreting.BinaryOp | pylox/interpreter/interpreter.py:69-112 | definition: `visit_binary` after both operands are evaluated, `nil` for an operator it does not handle; proved in `NotEqualNegatesEqual`, `NumericOperatorsNeedNumbers`, `NumericResults`, `PlusCases` and `OperatorsBlameThemselves` |
| Interpreting.EndsWithPointZero | pylox/interpreter/interpreter.py:24 | definition: the text ends in ".0" |
| Interpreting.StripPointZero | pylox/interpreter/interpreter.py:22-26 | definition: the number text without a trailing ".0"; stated in `InterpretingProperties.StripOnlyPointZero` |
| Interpreting.Evaluate | pylox/interpreter/interpreter.py:30-112 | definition: `evaluate` dispatches through `accept` to the visit methods, right operand first, with `AttributeError` for kinds that have none; proved in `RightOperandFirst`, `HandledHasVisitMethods`, `UnhandledKinds`, `ArithmeticEvaluates` and `RuntimeErrorsBlameAnOperator` |
| Interpreting.Stringify | pylox/interpreter/interpreter.py:19-28 | definition: "nil", the number's text without a trailing ".0", `str` of a boolean, or the string; proved in `InterpretingProperties.StripOnlyPointZero` and `StringifyCases` |
| InterpretingProperties.TruthyUnlessNilOrFalse | pylox/interpreter/interpreter.py:33-36 | only `nil` and `false` are falsey |
| InterpretingProperties.EqualityCases | pylox/interpreter/interpreter.py:38-42 | equality is value equality plus Python's bool/number cross-equality; `nil` equals only `nil`; it is symmetric and reflexive |
| InterpretingProperties.NotEqualNegatesEqual | pylox/interpreter/interpreter.py:73-77 | `==` and `!=` never fail, give booleans, and `!=` is the negation of `==` |
| InterpretingProperties.NumericOperatorsNeedNumbers | pylox/interpreter/interpreter.py:79-112 | `>`, `>=`, `<`, `<=`, `-`, `/`, `*` fail with "Operand must be a number." on their own token exactly when an operand is not a number; on numbers, comparisons give booleans and the others numbers, except division by zero |
| InterpretingProperties.NumericResults | pylox/interpreter/interpreter.py:79-112 | on two numbers, each comparison and arithmetic operator gives the corresponding comparison or operation of the numbers |
| InterpretingProperties.PlusCases | pylox/interpreter/interpreter.py:99-104 | `+` succeeds exactly on two numbers (their sum) or two strings (their concatenation, which keeps both texts in order); otherwise "Operand must be two numbers or two strings." |
| InterpretingProperties.UnaryCases | pylox/interpreter/interpreter.py:59-67 | unary `-` fails with "Operand must be a number." exactly on a non-number, and otherwise negates; `!` gives the negated truthiness |
| InterpretingProperties.RightOperandFirst | pylox/interpreter/interpreter.py:69-71 | in a binary node an error in the right operand is reported even when the left one would fail too; then the left error; then the operator's result |
| InterpretingProperties.DoubleNegation | pylox/interpreter/interpreter.py:56-67 | a grouping has its inner value; `- -e` is `e` for a number and an operand error otherwise |
| InterpretingProperties.DoubleBang | pylox/interpreter/interpreter.py:59-67 | `!!e` is the truthiness of `e` |
| InterpretingProperties.UnhandledKinds | pylox/interpreter/interpreter.py:30-31 | assignments, calls, logical operators and variables meet a missing visit method |
| InterpretingProperties.HandledHasVisitMethods | pylox/interpreter/interpreter.py:53-112 | a tree of literals, groupings, unary and binary nodes never meets a missing visit method |
| InterpretingProperties.NoAttributeErrorFromOperators | pylox/interpreter/interpreter.py:59-112 | applying an operator raises only Lox errors or `ZeroDivisionError` |
| InterpretingProperties.ArithmeticEvaluates | pylox/interpreter/interpreter.py:53-112 | arithmetic on number literals with `+`, `-`, `*`, negation and parentheses never fails and gives the number it denotes |
| InterpretingProperties.RuntimeErrorsBlameAnOperator | pylox/interpreter/interpreter.py:44-112 | a Lox run-time error always carries an operator token of the evaluated expression and one of the two operand messages |
| InterpretingProperties.OperatorsBlameThemselves | pylox/interpreter/interpreter.py:44-51 | the errors an operator raises carry its own token |
| InterpretingProperties.StripOnlyPointZero | pylox/interpreter/interpreter.py:22-26 | `stringify` removes a trailing ".0" from a number's text and nothing else |
| InterpretingProperties.StringifyCases | pylox/interpreter/interpreter.py:19-28 | `nil` is "nil", booleans are "True"/"False", strings are themselves, "1.0" becomes "1" and "2.5" stays |
| Environments.Environment.constructor | pylox/interpreter/environment.py:8-9 | a new environment has no bindings |
| Environments.Environment.Define | pylox/interpreter/environment.py:11-12 | `define` binds or rebinds the name, never fails, and leaves every other name's binding unchanged |
| Environments.Environment.Get | pylox/interpreter/environment.py:14-18 | definition: the value bound to the token's lexeme, or the `RuntimeError` "Undefined variable '<name>'." on the token; characterised by `Environments.GetSucceedsIffBound` |
| Environments.UndefinedVariable | pylox/interpreter/environment.py:14-18 | definition: the message "Undefined variable '<name>'." that `get` raises with the token |
| Environments.GetSucceedsIffBound | pylox/interpreter/environment.py:14-18 | `get` succeeds exactly for bound names, with the bound value; otherwise it fails with "Undefined variable '<name>'." and the name token |
| Environments.GetByLexemeOnly | pylox/interpreter/environment.py:14-16 | tokens with the same lexeme, on any line, see the same binding |
| Environments.DefineThenGet | pylox/interpreter/environment.py:11-18 | after `define(n, v)` a lookup of `n` gives `v`; after redefining it gives the new value; another name stays undefined |
| Printing.LiteralText | pylox/parser/ast_printer.py:22-25 | definition: "nil" for `nil`, otherwise `str` of the payload, a number's text being the parameter `numText`; proved in `PrintingProperties.LiteralPrints` |
| Printing.Printed | pylox/parser/ast_printer.py:10-29 | definition: the text `print` returns, built by `parenthesize` for binary, grouping and unary nodes and by `visit_literal` for literals, or `None` for a kind without a visit method; proved in `PrintingProperties.PrintsIffHandled` and the `*Prints` lemmas |
| Printing.PrintedAllPointwise | pylox/parser/ast_printer.py:34-35 | the operands print exactly when each of them does, and then operand by operand in order |
| Printing.Print | pylox/parser/ast_printer.py:10-11 | `print` returns the text `Printed` gives, or `None` for a kind without a visit method |
| Printing.Parenthesize | pylox/parser/ast_printer.py:32-37 | the builder loop returns "(" + name, then " " and each operand's text in argument order, then ")" |
| PrintingProperties.PrintsIffHandled | pylox/parser/ast_printer.py:10-37 | a tree prints exactly when every node is a binary, grouping, literal or unary node |
| PrintingProperties.SpacedParts | pylox/parser/ast_printer.py:34-35 | each part is preceded by one space, in order |
| PrintingProperties.ParenthesizedShape | pylox/parser/ast_printer.py:32-37 | the text starts with "(" and the name, ends with ")", and is the name and its one or two operands separated by single spaces |
| PrintingProperties.LiteralPrints | pylox/parser/ast_printer.py:22-25 | `nil` prints as "nil"; any other literal as its `str` text |
| PrintingProperties.BinaryPrints | pylox/parser/ast_printer.py:14-15 | a binary node prints as "(" + operator + " " + left + " " + right + ")" |
| PrintingProperties.GroupingPrints | pylox/parser/ast_printer.py:18-19 | a grouping prints as "(group " + inner + ")" |
| PrintingProperties.UnaryPrints | pylox/parser/ast_printer.py:28-29 | a unary node prints as "(" + operator + " " + operand + ")" |
| PrintingProperties.TestExpression | tests/ast_printer_test.py:8-13 | the example tree prints as "(* (- 123) (group 45.67))", given the `str` texts of its two numbers |
| Pipeline.LayeredIsHandled | pylox/parser/parser.py:58-122 | a tree the parser's precedence levels allow has only binary, grouping, literal and unary nodes |
| Pipeline.SourceToTree | pylox/lox.py:49-62 | scanning gives the token list the parser requires, and every expression parsed from it can be printed and has visit methods throughout |

## Left out

- **The command-line shells.** `pylox/lox.py`, `commandline/lox.py` and `lox.py` handle arguments, read files, run the prompt with `input()`, print, exit with status codes and keep the `had_error` flags. This is I/O and process policy. `ScanSource`, `ParseTokens` and `SourceToTree` model only how `run` chains scanner, parser, printer and evaluator.
- **How errors are reported.** The callbacks format "[line N ] Error...: message" and print it. The model only records the arguments of each call.
- **`Interpreter.interpret`.** Its `print` of the stringified value and its `try`/`except` are I/O. `Evaluate` returns the result instead.
- **Floating point.** Numbers are exact reals:
  - a NUMBER literal is the exact decimal value of its lexeme, not the nearest double that `float(...)` gives;
  - arithmetic and comparison are exact;
  - Python's `str(float)` is the parameter `numText` of `Stringify` and the printer, and is not modelled.
- **Integers.** The test builds `Literal(123)` with a Python `int`; the model has `NumValue(123.0)`, and its text is given through `numText`.
- **Other literal payloads.** A literal or token payload is `nil`, a boolean, a number or a string. Other Python objects cannot be represented, so `str` of them and `visit_literal`'s `None` test on them are not modelled.
- **Callables.** `pylox/interpreter/lox_function.py`, `lox_callable.py` and `clock_function.py` read the wall clock, or depend on interpreter parts that do not exist in the repository.
- **Statements.** `pylox/parser/stmt.py` is only the datatype `Ast.Stmt`, since nothing executes statements.
- **The draft `productions.py` as written.** The model does not reproduce the `ImportError` and `AttributeError` that importing this draft causes (see "Which `Expr` the modules see"). Its four constructor-only classes are not modelled apart from `Ast.Expr`. The broken duplicates `scanner.py`, `token.py` and `runtime/scanner/token_item.py` are not part of this model.
- **Debug text.** The `__repr__` methods of the tree nodes and the token record are not modelled.
- **Inputs to the parser.** `Parsing.Parser.constructor` requires a non-empty token list ending in EOF. The parser indexes `tokens[current]` unguarded, and `scan_tokens` always produces such a list (`Pipeline.SourceToTree`).
- **Python's recursion limit.** The parser, `evaluate` with `accept`, and the printer recurse once per level of nesting. Input nested deeply enough exceeds CPython's default limit of 1000 frames. Each `(` costs about seven frames of the parser's descent, and each prefix `!` or `-` one. The result is a `RecursionError`, which `parse` (`pylox/parser/parser.py:17-21`) does not catch. `ExpressionP`, `Evaluate` and `Printed` have no depth bound: they give a result for every input.
- StringifyCases: states the number case only for the texts "1.0" and "2.5"; the general rule is `StripOnlyPointZero`, because `str(float)` is a parameter.
- NumericResults: states division only for a non-zero divisor; zero is `NumericOperatorsNeedNumbers`'s `ZeroDivisionError` case.
