# A verified model of a tree-walking Lox interpreter

This project models the core of a Go implementation of Lox, the small
dynamically typed language of *Crafting Interpreters*, and proves properties
of that model. It covers the pipeline from source text to executed program:

- **Scanner** (`scanner.dfy`, module `Lexer`). The reference functions `Lex`
  (one lexeme) and `Tokenize` (a whole scan) say what scanning yields. The
  class `Lexer.Scanner` has the source's `start`/`current`/`line` cursor and
  its token and error lists. Each of its methods is proved to do what `Lex`
  says, and `ScanTokens` to produce `Tokenize` followed by one EOF token.
- **Tokens** (`tokens.dfy`): token types, the keyword table, and what makes a
  token well formed.
- **Parser** (`parser.dfy`, module `Parsing`). The reference functions
  `ParseExpr`, `ParseBinary`, `ParseMore`, `ParseUnary` and `ParsePrimary`
  work over a token list and a position. The class `Parsing.Parser` is the
  recursive-descent parser with its `current` cursor. Each method is proved
  equal to its level's function. Lemmas about those functions state
  precedence, left associativity and the shape of every tree the parser
  builds.
- **Expression printer** (`printer.dfy`): the Lisp-like rendering
  `(op left right)`, proved to hold one pair of parentheses per operator node.
- **Values and objects** (`values.dfy`, `instance.dfy`):
  - functions, with their arity;
  - classes, with method lookup along the superclass chain and arity from
    `init`;
  - instances, with a field table that `set` updates in place;
  - the value and error types of the evaluator.
- **Environments** (`environment.dfy`): the class `Environment`, a heap frame
  with a `values` map and a link to its enclosing frame. `get`, `define` and
  `assign` work along the chain.
- **Evaluator**:
  - `operators.dfy`: truthiness, host equality, operand checks and the
    operators.
  - `frames.dfy` and `semantics.dfy`: the reference semantics, a set of
    functions over a store of frames that say what evaluating and executing
    yields.
  - `interpreter.dfy`: the class `Interpreting.Interpreter`, which works on
    heap frames. Every one of its methods is proved to end in exactly the
    state and outcome the reference semantics gives, through a ghost list of
    all frames that the store mirrors.

Outcomes distinguish a normal result, an error (`Raised`), and a crash of
the host (`Panicked`). A crash is an unchecked type assertion, or an
equality test on values the host cannot compare. A fourth outcome,
`Exhausted`, means the budget of calls and loop iterations ran out (see
Left out).

The model follows the code where the code departs from the usual Lox
behaviour:

- `or` yields its left operand whatever that operand is. Both of its
  branches return the left value.
- `and` always evaluates its right operand.
- Call arguments are passed to the callee unevaluated.
- `if` and `while` drop the errors of their bodies. An error in a `while`
  condition ends the loop without error.
- `-`, `*` and `/` on non-numbers crash the host.
- A missing `)` after a group is reported and then ignored.
- Assigning an unbound name fails only from a frame with no enclosing frame.
- A function body runs in a fresh interpreter whose globals are unset.
- A missing field's error reads "Undefined propert NAME.".

## Model

| member | source | states |
|---|---|---|
| Tokens.KeywordTable | scanner.go:23-40 | a word maps to a token type in the keyword table exactly when that type is a reserved word's type and the word is its spelling |
| Tokens.KeywordReserved | scanner.go:23-40 | every word of the table spells the reserved word it maps to |
| Tokens.KeywordSpelled | scanner.go:23-40 | the spelling of every reserved word is in the table, mapped to that word's type |
| Tokens.IsDigit | scanner.go:189-191 | definition: a byte is a digit exactly when it lies in '0'..'9'; `Lexer.LexNumber` and `Lexer.IntegerText` state what the scanner takes with it |
| Tokens.IsAlpha | scanner.go:144-148 | definition: a letter of either case or '_'; `Lexer.LexWord` states what the scanner takes with it |
| Tokens.IsAlphaNumeric | scanner.go:150-152 | definition: a letter, '_' or a digit; `Lexer.LexWord` states what the scanner takes with it |
| Tokens.IdentifierWellFormed | scanner.go:131-142 | an identifier-shaped word becomes a well-formed token, typed as a keyword or IDENTIFIER |
| Tokens.NumberWellFormed | scanner.go:157-175 | a number lexeme becomes a well-formed NUMBER token carrying the value its digits spell |
| Tokens.StringWellFormed | scanner.go:193-211 | a quoted lexeme becomes a well-formed STRING token whose literal is the text between the quotes |
| Tokens.FixedWellFormed | scanner.go:53-99 | a token of a fixed-spelling type scanned from its spelling is well formed |
| Lexer.NewlinesMonotone | scanner.go:114-115 | the line count never decreases as the cursor moves on |
| Lexer.SpanWhile | scanner.go:132-134 | a skip loop stops at the first byte outside its run, or at the end |
| Lexer.SpanWhileRun | scanner.go:102-104 | every byte a skip loop passes over belongs to its run |
| Lexer.CommentEnd | scanner.go:213-228 | a block comment's scan stops at a star-slash or at the end of the text |
| Lexer.CommentEndFirst | scanner.go:213-228 | no star-slash occurs before the one the block comment stops at |
| Lexer.NumberEndFraction | scanner.go:157-175 | a number takes a fraction when its '.' is followed by a digit |
| Lexer.NumberEndInteger | scanner.go:157-175 | a number without a '.' followed by a digit ends after its integer digits |
| Lexer.Lex | scanner.go:53-129 | one step of the scanner always consumes at least one byte and stays within the text |
| Lexer.Tokenize | scanner.go:44-51 | definition of a whole scan as repeated steps; `Lexer.TokenizeUnfold`, `Lexer.TokenizeWellFormed`, `Lexer.TokenizeCuts` and `Lexer.TokenizeLines` state its properties |
| Lexer.StepsTokenize | scanner.go:44-48 | after one step, scanning on from the new cursor completes the scan from the old one |
| Lexer.TokenizeUnfold | scanner.go:44-48 | a scan is its first lexeme's token and error followed by the scan of the rest |
| Lexer.StepPunctuation | scanner.go:56-75 | a punctuation byte is one step that adds its one-byte token |
| Lexer.StepOperator | scanner.go:76-99 | an operator case of the scanner is one step of the scan |
| Lexer.StepSlash | scanner.go:100-110 | the '/' case (comment or SLASH) is one step of the scan |
| Lexer.StepBlank | scanner.go:111-115 | whitespace and newlines are steps that add nothing |
| Lexer.StepString | scanner.go:193-211 | scanning a string is one step of the scan |
| Lexer.StepNumber | scanner.go:157-175 | scanning a number is one step of the scan |
| Lexer.StepWord | scanner.go:131-142 | scanning an identifier or keyword is one step of the scan |
| Lexer.StepUnexpected | scanner.go:120-127 | any other byte is one step that reports "Unexpected character." on its line |
| Lexer.LexOperator | scanner.go:76-99 | two-byte operators win over their one-byte prefixes exactly when '=' follows, and the token is spelled by its text |
| Lexer.LexLineComment | scanner.go:101-104 | a line comment adds nothing and runs up to, not over, the next newline |
| Lexer.LexBlockComment | scanner.go:105-106 | a block comment adds no token; it ends just after the first star-slash, or reaches the end with "Unterminated multiline comment." exactly when there is none |
| Lexer.LexString | scanner.go:193-211 | a string's literal is the text strictly between the quotes; without a closing quote the scan ends with "Unterminated string." and no token |
| Lexer.LexNumber | scanner.go:157-175 | a number takes every following digit, and a fraction only when the '.' is followed by a digit |
| Lexer.NumberText | scanner.go:157-175 | the text up to the number's end is a number lexeme as long as the rule allows |
| Lexer.LexWord | scanner.go:131-142 | an identifier takes every following letter, digit or '_' and gets its keyword's type when reserved |
| Lexer.FractionText | scanner.go:163-172 | digits, a '.', and at least one more digit form a number lexeme with a fraction |
| Lexer.IntegerText | scanner.go:157-161 | a non-empty run of digits is a number lexeme without a fraction |
| Lexer.LexWellFormed | scanner.go:53-129 | every token one step adds is well formed |
| Lexer.LexStringWellFormed | scanner.go:193-211 | a string step adds only well-formed tokens |
| Lexer.LexNumberWellFormed | scanner.go:157-175 | a number step adds only well-formed tokens |
| Lexer.LexWordWellFormed | scanner.go:131-142 | an identifier step adds only well-formed tokens |
| Lexer.TokenizeWellFormed | scanner.go:44-51 | every token of a scan is well formed |
| Lexer.TokenizeCuts | scanner.go:274-280 | the tokens of a scan are cut from the text in order, without overlap, each lexeme being the text of its own span |
| Lexer.TokenizeLines | scanner.go:274-280 | each token carries the line its lexeme ends on, so token lines never decrease |
| Lexer.Scanner.constructor | scanner.go:16-42 | a new scanner starts at position 0 on line 1 with no tokens |
| Lexer.Scanner.ScanTokens | scanner.go:44-51 | the scanner appends the tokens and errors of the whole scan, then one EOF token with an empty lexeme on the last line |
| Lexer.Scanner.ScanToken | scanner.go:53-129 | one call scans exactly the lexeme `Lex` finds and appends its token and error |
| Lexer.Scanner.ScanOperator | scanner.go:76-99 | an operator byte, joined by a following '=', becomes one token |
| Lexer.Scanner.ScanSlash | scanner.go:100-110 | '/' begins a line comment, a block comment or the SLASH token |
| Lexer.Scanner.ScanIdentifier | scanner.go:131-142 | the rest of a word is consumed and typed through the keyword table |
| Lexer.Scanner.ScanNumber | scanner.go:157-175 | the rest of a number is consumed and its value recorded |
| Lexer.Scanner.Skip | scanner.go:132-134 | a skip loop stops exactly where the run ends |
| Lexer.Scanner.ScanString | scanner.go:193-211 | a string is consumed up to its closing quote, counting newlines, or reported as unterminated |
| Lexer.Scanner.MultiComment | scanner.go:213-228 | a block comment is consumed past its star-slash, counting newlines, or reported as unterminated at the end |
| Lexer.Scanner.IsAtEnd | scanner.go:260-262 | definition: the cursor has reached the end of the text; the loops of `Lexer.Scanner.ScanTokens` and `Lexer.Scanner.Skip` state where they stop with it |
| Lexer.Scanner.Match | scanner.go:230-239 | the cursor advances by one exactly when the next byte is the expected one; otherwise nothing changes |
| Lexer.Scanner.Peek | scanner.go:248-253 | the next byte, or '\0' at the end |
| Lexer.Scanner.PeekNext | scanner.go:182-187 | the byte after the next, or '\0' past the end |
| Lexer.Scanner.Advance | scanner.go:268-272 | returns the next byte and moves the cursor by exactly one |
| Lexer.Scanner.AddToken | scanner.go:274-285 | appends a token whose lexeme is the text from `start` to `current`, on the current line |
| Lexer.Scan | scanner.go:44-51 | a fresh scan yields `Tokenize` of the whole text followed by one EOF token on the last line |
| Parsing.ParseExpr | parser.go:35-37 | parsing moves the cursor forwards within the tokens, and past at least one token when it succeeds |
| Parsing.ParseBinary | parser.go:39-109 | a binary level keeps the cursor within the tokens and consumes a token when it succeeds |
| Parsing.ParseMore | parser.go:44-52 | the operator loop of a level keeps the cursor within the tokens |
| Parsing.ParseUnary | parser.go:111-125 | a unary expression consumes at least one token when it succeeds |
| Parsing.ParsePrimary | parser.go:127-152 | a primary expression consumes at least one token when it succeeds |
| Parsing.OperatorsLevel | parser.go:39-109 | each operator belongs to exactly the level that takes it |
| Parsing.ExprShaped | parser.go:35-125 | every tree a parse yields has the precedence shape: left children bind no looser, right children strictly tighter |
| Parsing.BinaryShaped | parser.go:39-109 | a binary level yields a shaped tree binding no looser than the level |
| Parsing.MoreShaped | parser.go:44-52 | the operator loop keeps the tree shaped, growing it to the left |
| Parsing.UnaryShaped | parser.go:111-125 | a unary expression is shaped and binds as tightly as a primary one |
| Parsing.PrimaryShaped | parser.go:127-152 | a primary expression is shaped |
| Parsing.MoreStops | parser.go:44-52 | a level stops at a token that is not one of its operators and returns the tree so far |
| Parsing.NumberPrimary | parser.go:138-140 | a NUMBER token is a literal holding its value |
| Parsing.UnaryPrimary | parser.go:111-125 | without a leading '!' or '-', a unary expression is a primary one |
| Parsing.NumberOperand | parser.go:111-140 | a NUMBER token is a whole unary expression |
| Parsing.OperandAlone | parser.go:39-109 | an operand followed by no operator of the levels up to `l` is the whole parse at level `l` |
| Parsing.LevelsAbove | parser.go:39-91 | looser levels add nothing above an operand with no operator after it |
| Parsing.ProductBindsTighter | parser.go:75-109 | `1 + 2 * 3` parses with the product as the right operand of the sum |
| Parsing.MinusGroupsLeft | parser.go:75-91 | `1 - 2 - 3` parses as `(1 - 2) - 3` |
| Parsing.UnclosedGroupAccepted | parser.go:142-148 | `(1` with no closing parenthesis parses as a group, the cursor staying on EOF |
| Parsing.PrimaryCases | parser.go:127-152 | false/true/nil become literals, NUMBER/STRING their literal, '(' a group; any other token, and only those, gives "Expect expression." with the cursor unmoved |
| Parsing.Parser.constructor | parser.go:19-25 | a new parser starts at the first token |
| Parsing.Parser.Parse | parser.go:27-33 | yields the tree of `ParseExpr`, and nothing exactly when the parse fails |
| Parsing.Parser.Expression | parser.go:35-37 | the method's result and cursor are those of `ParseExpr` |
| Parsing.Parser.Equality | parser.go:39-55 | the method's result and cursor are those of the equality level |
| Parsing.Parser.Comparison | parser.go:57-73 | the method's result and cursor are those of the comparison level |
| Parsing.Parser.Term | parser.go:75-91 | the method's result and cursor are those of the term level |
| Parsing.Parser.Factor | parser.go:93-109 | the method's result and cursor are those of the factor level |
| Parsing.Parser.Unary | parser.go:111-125 | the method's result and cursor are those of `ParseUnary` |
| Parsing.Parser.Primary | parser.go:127-152 | the method's result and cursor are those of `ParsePrimary` |
| Parsing.Parser.Check | parser.go:170-175 | definition: the current token has the given type and is not EOF; `Parsing.Parser.Match` and `Parsing.Parser.Consume` state what follows from it |
| Parsing.Parser.IsAtEnd | parser.go:184-186 | definition: the current token is EOF; `Parsing.Parser.Advance` and `Parsing.Parser.Synchronize` state its effect |
| Parsing.Parser.Peek | parser.go:188-190 | definition: the token at the cursor |
| Parsing.Parser.Previous | parser.go:192-194 | definition: the token before the cursor; `Parsing.Parser.Advance` states that it returns it |
| Parsing.Parser.Match | parser.go:154-162 | consumes exactly one token when its type is one of those listed, and otherwise nothing; never at EOF |
| Parsing.Parser.Consume | parser.go:164-169 | consumes and returns a token of the expected type, or reports the message at the current token without moving |
| Parsing.Parser.Advance | parser.go:178-183 | never moves past the EOF token and returns the token before the cursor |
| Parsing.Parser.Synchronize | parser.go:202-214 | skips to just after a ';', just before a statement keyword, or to the end, whichever comes first |
| Printer.Render | astPrinter.go:5-22 | definition of the rendering; `Printer.OperatorNodes`, `Printer.Balanced` and `Printer.RenderNested` state its properties |
| Printer.Parenthesize | astPrinter.go:24-34 | yields `(name`, then the rendering of each operand after one space, in order, then `)` |
| Printer.RenderAllParts | astPrinter.go:27-30 | the operands' renderings are one per operand, in order, each the rendering of its operand |
| Printer.OperatorNodes | astPrinter.go:5-22 | Binary, Grouping and Unary nodes print as `parenthesize` of their operator (or "group") and operands |
| Printer.SampleTree | astPrinter.go:36-54 | the printer's sample tree `-123 * (45.67)` prints as `(* (- 123) (group 45.67))` |
| Printer.SampleOperands | astPrinter.go:36-54 | the sample's operands print as `(- 123)` and `(group 45.67)` |
| Printer.SampleText | astPrinter.go:24-34 | `parenthesize` of `*` and the two sample operands is `(* (- 123) (group 45.67))` |
| Printer.CountAbsent | astPrinter.go:13-18 | a leaf text without parentheses adds none |
| Printer.SpacedCounts | astPrinter.go:27-30 | the spaces between operands add no parentheses |
| Printer.ParenthesizedCounts | astPrinter.go:24-34 | a rendered node holds its own pair of parentheses plus those of its operands |
| Printer.GroupingCounts | astPrinter.go:9-11 | a grouping adds one pair to its operand's parentheses |
| Printer.UnaryCounts | astPrinter.go:20-22 | a unary node adds one pair to its operand's parentheses |
| Printer.TwoOperandCounts | astPrinter.go:5-7 | a binary node adds one pair to its operands' parentheses |
| Printer.Balanced | astPrinter.go:5-34 | when operator lexemes, literal texts and the host's default texts hold no parentheses, a rendering holds exactly one '(' and one ')' per Binary, Grouping and Unary node |
| Printer.Flat | astPrinter.go:13-18 | a leaf text without parentheses stays at depth 0 at every prefix |
| Printer.AboveConcat | astPrinter.go:24-34 | joining a text to one whose prefixes keep a minimum depth keeps that minimum, and the depths add |
| Printer.SpacedNested | astPrinter.go:27-30 | nested operand renderings separated by spaces stay nested |
| Printer.ParenthesizedNested | astPrinter.go:24-34 | a node opens one pair around nested operands, so its text is nested |
| Printer.RenderNested | astPrinter.go:5-34 | when operator lexemes, literal texts and the host's default texts hold no parentheses, no prefix of a rendering closes more parentheses than it opens, and the whole rendering closes all it opens |
| Values.FunctionArity | lox_function.go:40-42 | definition: a function's arity is its number of declared parameters; `Semantics.CallArity` states the check it drives |
| Values.FunctionText | lox_function.go:44-46 | definition: a function prints as `<fn NAME>` |
| Values.ClassText | lox_class.go:31-33 | definition: a class prints as its name |
| Values.InstanceText | lox_instance.go:17-19 | definition: an instance prints as its class's name followed by ` instance` |
| Values.Lineage | lox_class.go:5-9 | a class's chain starts with the class itself |
| Values.FindMethod | lox_class.go:19-29 | definition of method lookup along the superclass chain; `Values.FindMethodNearest` states its result |
| Values.FindMethodNearest | lox_class.go:19-29 | `findMethod` returns the method of the nearest class on the chain that has the name; it fails with "method not found" exactly when none does |
| Values.OwnMethodShadows | lox_class.go:20-22 | a class's own method shadows any inherited one |
| Values.InheritedMethod | lox_class.go:24-26 | a class without the name answers as its superclass does |
| Values.ClassArity | lox_class.go:44-50 | definition: the arity of the nearest `init`, or 0; `Values.ClassArityFromInit` states it |
| Values.ClassArityFromInit | lox_class.go:44-50 | a class's arity is that of its nearest `init`, or 0 without one |
| Values.Decimal | interpreter.go:151-154 | the decimal text of a count is non-empty and all digits |
| Values.DecimalRoundTrip | interpreter.go:151-154 | reading a count's decimal text back gives the count |
| Instances.LoxInstance.constructor | lox_instance.go:10-15 | a new instance has the given class and no fields |
| Instances.LoxInstance.String | lox_instance.go:17-19 | definition: an instance prints as `Values.InstanceText` of its class |
| Instances.LoxInstance.Get | lox_instance.go:21-27 | the field's value exactly when the field is set, otherwise the runtime error "Undefined propert NAME." at the name |
| Instances.LoxInstance.Set | lox_instance.go:29-31 | binds exactly one field, after which `get` of it yields the value, and every other field reads as before |
| Environments.Environment.constructor | environment.go:5-8 | a frame holds the given bindings and link, and its chain is acyclic |
| Environments.Environment.Get | environment.go:20-33 | the value of the nearest binding along the chain, which is the binding of the chain's merged scope, or "Undefined variable 'NAME'." when no frame binds it |
| Environments.Environment.Holder | environment.go:20-33 | the nearest frame binding the name exists exactly when the scope has the name, and it holds the scope's value |
| Environments.Environment.Define | environment.go:13-15 | binds the name in this frame only; the visible scope gains exactly that binding |
| Environments.Environment.Assign | environment.go:38-56 | rebinds the name only in the nearest frame binding it, leaving every other frame unchanged; fails only from a root frame lacking the name |
| Environments.BoundThenGet | environment.go:20-24 | a name bound in a frame's own table is got from that frame with that value, whatever the enclosing frames bind |
| Frames.Up | environment.go:28-30 | the enclosing frame is an earlier one, and in a linked store it is the frame's own link |
| Frames.Lookup | environment.go:20-33 | a lookup fails only with "Undefined variable 'NAME'." |
| Frames.Holder | environment.go:39-49 | the holder found is the start frame or an earlier one, and binds the name |
| Frames.Define | environment.go:13-15 | binds the name in the given frame, keeping its link and its other bindings; every other frame is unchanged |
| Frames.Assign | environment.go:38-56 | assignment keeps the number of frames |
| Frames.HolderLookup | environment.go:20-49 | the nearest holder exists exactly when a lookup succeeds, and holds the value the lookup finds |
| Frames.AssignKeepsLinks | environment.go:38-56 | assignment changes no frame's enclosing frame |
| Frames.AssignHolder | environment.go:38-56 | assignment is a definition in the nearest frame binding the name, or no change; it fails exactly from a root frame lacking the name |
| Frames.DefineLast | environment.go:13-15 | defining in the newest frame changes only that frame |
| Frames.DefineThenLookup | environment.go:13-33 | a definition is seen by a lookup from the same frame |
| Frames.AssignThenLookup | environment.go:20-56 | after assignment a lookup sees the new value exactly when the name was bound; an unbound name changes nothing |
| Frames.LookupPrefix | environment.go:20-33 | a lookup from a frame sees only that frame and earlier ones |
| Frames.DefineInLaterFrame | environment.go:13-33 | a name defined in an inner frame does not leak to an outer one |
| Operators.IsTruthy | interpreter.go:288-296 | definition of truthiness; `Operators.TruthyExactly` states it |
| Operators.IsEqual | interpreter.go:298-306 | definition of equality, with `None` for the host's crash; `Operators.EqualityLaws` states its laws |
| Operators.CheckNumberOperand | interpreter.go:308-314 | definition: the number, or "operand must be a number." at the operator; `Operators.NegationOperand` states its cases |
| Operators.CheckNumberOperands | interpreter.go:316-323 | definition: both numbers, or "operands must be a number." at the operator; `Operators.ComparisonOperands` states its cases |
| Operators.ReadStruct | interpreter.go:344-371 | definition of how `+` reads an operand: a number, a text, nil (a crash), or something else; `Operators.PlusCases` states the outcomes |
| Operators.Compare | interpreter.go:205-228 | definition of the four comparisons; `Operators.ComparisonOperands` states their cases |
| Operators.Plus | interpreter.go:235-274 | definition of `+`; `Operators.PlusCases` states its cases |
| Operators.ApplyUnary | interpreter.go:182-193 | definition of `!` and unary `-` on an evaluated operand; `Operators.NegationOperand` states its cases |
| Operators.ApplyBinary | interpreter.go:203-281 | definition of the binary operators on evaluated operands; `Operators.ComparisonOperands`, `Operators.NotEqualNegates`, `Operators.PlusCases` and `Operators.ArithmeticCrashes` state its cases |
| Operators.TruthyExactly | interpreter.go:288-296 | a value is falsy exactly when it is nil or false |
| Operators.EqualityLaws | interpreter.go:298-306 | nil equals only nil; equality is reflexive on comparable values and symmetric, implies identity, and crashes exactly on two uncomparable values of one type |
| Operators.NotEqualNegates | interpreter.go:229-232 | `!=` is the negation of `==` and crashes exactly when it does |
| Operators.ComparisonOperands | interpreter.go:205-228 | the comparisons fail with "operands must be a number." at the operator unless both operands are numbers, and otherwise compare them |
| Operators.NegationOperand | interpreter.go:185-190 | unary minus fails with "operand must be a number." unless its operand is a number, which it negates |
| Operators.PlusCases | interpreter.go:235-274 | `+` adds two numbers, joins two strings, crashes when an operand is nil, fails with "operands must be two numbers or two strings." on every other mix of readable operands, and yields only numbers or strings |
| Operators.ArithmeticCrashes | interpreter.go:233-234 | `-`, `/` and `*` crash exactly when an operand is not a number, and never raise an error |
| Semantics.Bind | lox_function.go:21-28 | the call frame binds exactly the parameters' names |
| Semantics.Eval | interpreter.go:123-286 | evaluation only adds frames and never raises a return signal |
| Semantics.EvalAssign | interpreter.go:125-134 | an assignment only adds frames and never raises a return signal |
| Semantics.EvalBinary | interpreter.go:194-281 | a binary operation only adds frames and never raises a return signal |
| Semantics.EvalCall | interpreter.go:135-155 | a call only adds frames and never raises a return signal |
| Semantics.EvalLogical | interpreter.go:158-175 | a logical operation only adds frames and never raises a return signal |
| Semantics.EvalUnary | interpreter.go:176-193 | a unary operation only adds frames and never raises a return signal |
| Semantics.ArityMessage | interpreter.go:153 | definition of the arity error's text; `Semantics.CallArity` states that it names both counts in decimal |
| Semantics.CallValue | interpreter.go:146-155 | a call of a value only adds frames and never raises a return signal |
| Semantics.Returned | lox_function.go:30-37 | definition: a return signal's value, nil after a normal end, other outcomes unchanged; `Semantics.Invoke` and `Semantics.CallResults` state the call's result |
| Semantics.Construct | lox_class.go:35-42 | a class call that finishes yields an instance of the class and never raises an error |
| Semantics.Invoke | lox_function.go:16-38 | a function call never raises an error, and one that finishes yields nil |
| Semantics.Exec | interpreter.go:52-105 | a statement completes with no value, only adds frames and never raises a return signal |
| Semantics.ExecBlock | interpreter.go:54-58 | a block completes with no value and only adds frames |
| Semantics.ExecIf | interpreter.go:67-76 | an `if` completes with no value and only adds frames |
| Semantics.ExecVar | interpreter.go:91-102 | a declaration completes with no value and only adds frames |
| Semantics.ExecPrint | interpreter.go:77-82 | a `print` completes with no value and only adds frames |
| Semantics.ExecAll | interpreter.go:107-120 | a statement list completes with no value and only adds frames |
| Semantics.ExecWhile | interpreter.go:83-90 | a loop completes with no value and only adds frames |
| Semantics.WhileIteration | interpreter.go:85-89 | an iteration never raises, and the loop goes on only after a normal iteration |
| Semantics.WhileAfterCondition | interpreter.go:85-89 | the loop goes on exactly when the condition gave a truthy value and the body did not crash |
| Semantics.OrReturnsLeft | interpreter.go:164-174 | `or` yields its left operand's outcome whatever it is, never evaluating the right one |
| Semantics.AndEvaluatesRight | interpreter.go:164-175 | any other logical operator evaluates and yields its right operand once the left one evaluates |
| Semantics.AssignExpr | interpreter.go:125-134 | an assignment rebinds a bound name, which a lookup then finds; an unbound name changes nothing and is an error only from a root frame |
| Semantics.VarDeclares | interpreter.go:91-102 | a declaration binds the name in the current frame to its initializer's value, or to nil without one, and a lookup finds it; a failing initializer declares nothing |
| Semantics.IfIgnoresBranchErrors | interpreter.go:67-76 | an `if` raises an error exactly when its condition does |
| Semantics.WhileNeverRaises | interpreter.go:83-90 | a loop never ends with an error |
| Semantics.ExecAllAppend | interpreter.go:114-118 | running two statement lists in turn runs the second only if the first completed normally |
| Semantics.ExecAllStep | interpreter.go:114-118 | a list stops at the first statement that does not complete normally |
| Semantics.BindStep | lox_function.go:21-28 | binding one more parameter adds it over the earlier ones |
| Semantics.BindParameters | lox_function.go:21-28 | each parameter is bound to the argument at its position, unless a later parameter has the same name |
| Semantics.EnteredBinds | lox_function.go:17-28 | in the frame a call enters, a lookup of a parameter finds the argument at its position, unless a later parameter has the same name |
| Semantics.EnteredKeeps | lox_function.go:17-20 | entering a call changes no lookup from an earlier frame, nor the output |
| Semantics.CallNonCallable | interpreter.go:146-149 | calling anything but a function or class is "Can only call functions and classes." at the parenthesis |
| Semantics.CallArity | interpreter.go:151-154 | a call with the wrong number of arguments fails before anything runs, naming both counts in decimal |
| Semantics.CallResults | lox_class.go:35-42 | a finished function call yields nil and a finished class call an instance of the class; a class without `init` called with no arguments always yields an instance |
| Syntax.StmtsSizeBound | stmt.go:7-9 | a statement of a block is no larger than the block |
| Interpreting.ChainListed | environment.go:5-8 | every frame on the chain from a listed frame is listed |
| Interpreting.Interpreter.Linked | environment.go:28-30 | every frame's link leads to an earlier frame, so lookups end |
| Interpreting.Interpreter.constructor | interpreter.go:30-39 | a new interpreter has one empty global frame, which is also the current frame, and no output |
| Interpreting.Interpreter.PushFrame | interpreter.go:54-56 | a new empty frame, enclosed by the given one, is added; nothing else changes |
| Interpreting.Interpreter.DefineIn | environment.go:13-15 | `define` on a heap frame is the store's definition |
| Interpreting.Interpreter.GetMirrors | environment.go:20-33 | the heap frame's `get` answers as the store's lookup |
| Interpreting.Interpreter.HolderMirrors | environment.go:38-49 | the heap frame's nearest holder of a name is the store's |
| Interpreting.Interpreter.AssignHere | environment.go:38-56 | `assign` on the heap frames does what the store's assignment does, error included |
| Interpreting.Interpreter.Interpret | interpreter.go:41-49 | runs the statements up to the first that fails, ending as the reference semantics says |
| Interpreting.Interpreter.ExecuteBlock | interpreter.go:107-120 | runs the statements in the given frame, ending as the reference semantics says, and restores the current frame however they end |
| Interpreting.Interpreter.ExecuteNext | interpreter.go:114-118 | the next statement of a list ends as the reference semantics says |
| Interpreting.Interpreter.Execute | interpreter.go:52-105 | one statement ends in the state and outcome the reference semantics gives |
| Interpreting.Interpreter.ExecuteBlockStmt | interpreter.go:54-58 | a block statement runs in a new frame enclosed by the current one, as the reference semantics says |
| Interpreting.Interpreter.ExecuteIf | interpreter.go:67-76 | an `if` ends as the reference semantics says |
| Interpreting.Interpreter.ExecutePrint | interpreter.go:77-82 | a `print` appends the value to the output, as the reference semantics says |
| Interpreting.Interpreter.ExecuteVar | interpreter.go:91-102 | a declaration ends as the reference semantics says |
| Interpreting.Interpreter.ExecuteWhile | interpreter.go:83-90 | a loop ends in the state and outcome the reference semantics gives |
| Interpreting.Interpreter.ExecuteWhileTurn | interpreter.go:85-89 | each turn of the loop either leaves it to go on with less fuel or ends it as the reference semantics says |
| Interpreting.Interpreter.ExecuteWhileIteration | interpreter.go:85-89 | one iteration ends as the reference semantics says |
| Interpreting.Interpreter.ExecuteWhileAfterCondition | interpreter.go:85-89 | the body runs only after a truthy condition, as the reference semantics says |
| Interpreting.Interpreter.Evaluate | interpreter.go:123-286 | an expression ends in the state and outcome the reference semantics gives |
| Interpreting.Interpreter.EvaluateAssign | interpreter.go:125-134 | an assignment ends as the reference semantics says |
| Interpreting.Interpreter.EvaluateBinary | interpreter.go:194-281 | a binary operation ends as the reference semantics says |
| Interpreting.Interpreter.EvaluateCall | interpreter.go:135-155 | a call collects the arguments as written and ends as the reference semantics says |
| Interpreting.Interpreter.EvaluateLogical | interpreter.go:158-175 | a logical operation ends as the reference semantics says |
| Interpreting.Interpreter.EvaluateUnary | interpreter.go:176-193 | a unary operation ends as the reference semantics says |
| Interpreting.Interpreter.CallValue | interpreter.go:146-155 | a call of a value ends as the reference semantics says |
| Interpreting.Interpreter.CallClass | lox_class.go:35-42 | a class call runs the nearest `init` and yields an instance, as the reference semantics says |
| Interpreting.Interpreter.CallFrame | lox_function.go:17-28 | the call frame is a new frame enclosed by the globals, binding the parameters in order |
| Interpreting.Interpreter.CallFunction | lox_function.go:16-38 | a function call ends as the reference semantics says |
| Interpreting.Interpreter.RunBody | lox_function.go:30 | a body runs in the call frame with no globals, which are put back afterwards |

## Left out

- Error reporting to the console is not modelled. Scanner errors are collected in a list, and a parse error carries its token and message. The driver that prints them and sets the error flags (lox.go, main.go) is not part of this model.
- The `clock` native is left out because it reads the wall clock. `NewInterpreter` defines it into a map that was never made, which would crash; the model's interpreter starts with an empty global frame.
- The source text is a sequence of bytes (chars below 256). Multi-byte characters are not modelled.
- Numbers are reals. The rounding of 64-bit floats, `strconv.ParseFloat`, and the host's infinities and NaN are not modelled. When `ParseFloat` fails on a number too large for a 64-bit float, the scanner adds no NUMBER token (scanner.go:171-173); the model always adds one. Division by zero yields 0 in `Operators.Quotient` as a stand-in.
- `stringify` (the text `print` writes, including the `%.1f` formatting of numbers) is left out. The output is the list of printed values.
- Printer.Render: the host's formatting of a number and its default formatting of the nodes the printer has no rendering for (assignments, calls, logical operations, variables and the object expressions) are not described; both are the `Formatting` parameter of `Printer.Render` and `Printer.Parenthesize`.
- Printer.Balanced: requires that operator lexemes, literal texts and the default texts of other nodes hold no parentheses. A string literal holding one would upset the count. The same precondition holds for `Printer.RenderNested`, which states that the parentheses nest.
- Equality of unevaluated argument expressions is structural in the model. The host compares the pointers of two argument nodes.
- `LoxFunction.String` prints the declaration's name token. `Values.FunctionText` uses the token's lexeme.
- The undefined `bind` at lox_class.go:39 is left out: `init` runs unbound, in a frame enclosed by the globals.
- The `LoxCallable` interface (lox_callable.go:3-6) declares a `call` with two results, while `LoxFunction.call` returns one (lox_function.go:16). As written, `LoxFunction` is not a `LoxCallable`, and the call at interpreter.go:155 does not compile. The model makes both functions and classes callable, as the callable check at interpreter.go:145-149 evidently intends, and a call yields one outcome.
- The parser builds value nodes (`Binary{...}` at parser.go:52, `Literal{...}` and `Grouping{...}` at parser.go:129-148), while `evaluate` matches pointer nodes (`*Literal` at interpreter.go:156, `*Binary` at interpreter.go:194). As written, every tree the parser builds would fall to the "unreachable code error" default of `evaluate`. The model uses one `Expr` datatype for both sides, so parsed trees are evaluated as intended.
- The `Function` statement (used at interpreter.go:64-66 but not declared in stmt.go) is modelled with the shape of its declaration in the AST generator.
- The `Return` statement (not declared in stmt.go) is modelled with the shape of its declaration in the AST generator (tool/generateAst.go:44). `execute` has no case for it, so it does nothing. The return signal of lox_function.go is modelled but no statement raises it.
- Parsing.Parser.Advance and Parsing.Parser.Synchronize: both require that the cursor is not at an EOF token at position 0, where `previous()` would read before the first token and crash (parser.go:193-195). The crash is not modelled. `synchronize` (parser.go:202-203) would reach it on a token list holding only EOF, but nothing in parser.go calls `synchronize`, and `match` and `consume` call `advance` only after a successful `check`, which is never at EOF.
- `Break` does nothing, since `execute` has no case for it.
- Semantics.Eval: evaluation and execution take a budget of calls and loop iterations (`fuel`) and end with `Exhausted` when it runs out. This leaves unmodelled whether a program that exceeds any budget runs forever.
- Interpreting.Interpreter.RunBody: the fresh interpreter that a call creates is modelled by clearing the current interpreter's globals for the body and restoring them afterwards. The frame that the current-frame field pointed to is restored as well.
- Interpreting.Interpreter.ExecuteWhile: the source's single loop is split into a turn method, an iteration method and an after-condition method. This keeps each step's proof small, and it does not change what runs.
- Frames.Up: in the reference store, a link to a later frame counts as no link. `Interpreting.Interpreter.Linked` proves that such links never occur in the interpreter's store.
- Semantics.Invoke: states only that a call never raises and yields nil when it finishes. The call frame is defined by `Semantics.Entered`; what it binds is stated by `Semantics.EnteredBinds` and `Semantics.EnteredKeeps`.
- Semantics.Eval: the "only adds frames" property states that the number of frames never decreases, not that earlier frames keep their links. That fact is kept by the interpreter's invariant.
- `interpret` has a value receiver, so its changes to the interpreter are lost when it returns. The model's `Interpret` keeps them.
- Get, Set, Super, This and Grouping expressions are not evaluated. `evaluate` reports the "unreachable code error" wrapper for them, and so does the model.
- The resolver, the class and field statements of the full language, and the `ReadStruct` reflection beyond numbers and strings are not part of this model.
