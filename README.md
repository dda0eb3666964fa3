# biss expression front end, modelled in Dafny

This project models the front end of biss, a small symbolic-expression system written in C++. It models the parts that turn a line of text into a canonical expression tree:

- **The function catalog** (`src/ast/function.h`). This is a fixed array of 21 function descriptors built by the `unary`, `binary` and `routine` builders. Each entry keys on the 32-bit FNV-1a hash of its identifier. `get(identifier, arity)` returns the first entry whose hash and arity match. The set `IDENTIFIERS` holds every identifier. Modules `Hashing` and `Functions`.
- **The six precedence levels** and `next` (`src/ast/precedence.h`). Module `Precedence`.
- **The lexer** (`src/parser/lexer.h`, `src/parser/lexer.cpp`). It splits the input into runs of one character category. Symbol runs are cut into the longest catalog identifiers or single characters. The lexer fills two parallel buffers: tokens, and the column each token starts at. It closes them with an end-of-line token at column `|input|`. `peek`, `read`, `discard` and `last_token_start` work over a cursor. Module `Lexing`, with `Lexer` as a class whose `cursor` field the methods update.
- **The parser** (`src/parser/parser.cpp`, `src/parser/parser.h`). This is recursive descent with precedence climbing over the shared lexer.
  - Every parse routine is a method on the `Lexer` object.
  - Each method is proved equal to a specification function over the token buffer and the cursor.
  - A thrown `parser::Error` is an `Err` result.

  Modules `Parsing` and `ParserProperties`.
- **Expression trees** (`src/ast/ast.h`, `src/ast/ast.cpp`): precedence, rendering with the minimal parentheses, structural equality with a supplied `double_equality`, and copying. Module `Tree`.
- **The engine entry points** (`src/engine/engine.cpp`): `flatten`, which splices nested calls of the same function as associativity allows, plus `evaluate_expr` and `evaluate_str`. Module `Engine`.
- **The rule-pattern and rule-template sum types** (`src/engine/predicate.h`, `src/engine/result.h`), including their by-name `Call` constructors, which resolve through the catalog. Modules `Predicates` and `Results`.

Doubles are opaque `Num` values. `std::stod`, `std::format("{}", double)` and `double_equality` are parameters of the operations that need them.

Where the documented behaviour of biss and its code disagree, the model follows the code:

- **`parse_precedence` never clears `from`.** Once the inner loop recurses with `from` set, every later round uses that same operator, whatever token is under the cursor. So a looser operator followed by a tighter one fails: `1 + 2 * 3` and `2 ** 3 ** 2` end with "expected an expression" (see `ParserProperties.SumOfProductFails`, `ParserProperties.PowerChainFails` and `ParserProperties.ClimbFromFails`). Left-nested chains of equal precedence parse as intended (`ParserProperties.LeftNesting`).
- **`flatten` ignores arity type.** The comment above `flatten` says it collects nested calls only for dynamic-arity functions. The code checks only associativity and identity. So unary minus, which is right-associative, collapses `-(-x)` to `-(x)` (`Engine.DoubleNegationCollapses`).
- **Flatten idempotence holds only without empty calls.** It holds for trees without empty calls, which is every tree the parser builds (`Engine.FlattenIdempotent`). A call with no arguments is spliced away on one pass and exposes a new splice on the next (`Engine.EmptyCallBreaksIdempotence`).
- **Empty input.** For the empty input, `categorize` emits one empty segment whose category is an uninitialised variable. The model reads that segment as emitting no token, so the stream is just EOL. Parsing it fails with "expected an expression" (`ParserProperties.NothingToParse`).

## Model

| member | source | states |
|---|---|---|
| Basics.NatToString | src/parser/parser.cpp:150 | the decimal rendering of a count is non-empty, all digits, with no leading zero |
| Basics.NatToStringRoundTrip | src/parser/parser.cpp:150 | reading the rendered count back as a decimal gives the count |
| Basics.JoinSnoc | src/ast/ast.cpp:26-35 | appending one more part to a delimited join appends the delimiter and the part |
| Basics.ConcatAppend | src/engine/engine.cpp:40-45 | concatenating two lists of argument groups concatenates their concatenations, which splits the splice loop at its last argument |
| Precedence.FromValue | src/ast/precedence.h:23 | the cast from an underlying value below 6 gives the level with that value |
| Precedence.Next | src/ast/precedence.h:18-24 | next never lowers the level |
| Precedence.NextSteps | src/ast/precedence.h:18-24 | next fixes L1, and otherwise moves exactly one level up, to the least level above its argument |
| Precedence.Ordering | src/ast/precedence.h:7-15 | the levels are declared loosest first: L6 < L5 < L4 < L3 < L2 < L1, and the order is antisymmetric |
| Precedence.ValueBounds | src/ast/precedence.h:7-15 | the underlying value fits the six declared levels and casting it back gives the level |
| Precedence.LowestIsBottom | src/ast/precedence.h:26 | LOWEST is at or below every level and L1 at or above every level |
| Hashing.Hash | src/ast/function.h:13-26 | the loop that XORs in each byte and multiplies by the prime, wrapping at 32 bits, computes the FNV-1a hash |
| Hashing.CharCode | src/ast/function.h:22 | defines the value XORed in: the character read as a signed char and widened to 32 bits (no contract; Hashing.Hash and Hashing.HashEmptyAndSnoc state its use) |
| Hashing.Fnv1a | src/ast/function.h:13-26 | defines FNV-1a from the seed, one XOR-multiply round per character (no contract; Hashing.Hash proves the loop computes it) |
| Hashing.HashEmptyAndSnoc | src/ast/function.h:15-25 | the hash of the empty string is the seed, and one more character applies one round to the hash so far |
| Hashing.HashSnoc | src/ast/function.h:20-24 | hashing from any state, a final character is one round after the rest |
| Functions.CatalogBuilt | src/ast/function.h:87-132 | entries 0 and 13 come from unary, entries 1-16 (except 13) from binary, and entries 17-20 from routine, each with its own fields |
| Functions.Unary | src/ast/function.h:87-100 | defines the prefix-operator descriptor: INFIX, ALL, RIGHT, STATIC arity 1, L1, the identifier's hash (no contract; Functions.CatalogShapes states the shape) |
| Functions.Binary | src/ast/function.h:103-116 | defines the infix-operator descriptor: INFIX, DYNAMIC arity 2, the given level and properties, the identifier's hash (no contract; see Functions.CatalogBuilt) |
| Functions.Routine | src/ast/function.h:119-132 | defines the routine descriptor: ROUTINE, L1, the given arity, the identifier's hash (no contract; see Functions.CatalogBuilt) |
| Functions.Fn | src/ast/function.h:135-174 | the catalog entry a function pointer points to: ARRAY indexed by position (no contract; Functions.CatalogBuilt and Functions.EntryHash state its entries) |
| Functions.CatalogShapes | src/ast/function.h:87-172 | static infix entries are unary operators (arity 1, L1, ALL, RIGHT), dynamic infix entries are binary (arity 2), routines are at L1, and every arity is at least 1 |
| Functions.EntryHash | src/ast/function.h:98 | every entry's stored identifier_hash is the FNV-1a hash of its identifier |
| Functions.HashesDistinct | src/ast/function.h:146-172 | two catalog entries share a hash exactly when they share an identifier (no collisions in the catalog) |
| Functions.RightAssociativeIsTightest | src/ast/function.h:146-172 | every binary right-associative entry is at level L1 |
| Functions.FindFrom | src/ast/function.h:189-196 | a lookup from position i returns an entry at or after i that matches the hash and the arity |
| Functions.FindFromFirst | src/ast/function.h:189-196 | the entry found is the first match at or after i, and no entry from i on matches when nothing is found |
| Functions.Find | src/ast/function.h:185-198 | a function found for an identifier matches that identifier's hash and the arity by the STATIC/DYNAMIC rule |
| Functions.FindIsFirst | src/ast/function.h:185-198 | get returns the first matching entry in catalog order, and nullptr only when no entry matches |
| Functions.Get | src/ast/function.h:185-198 | the hash-then-scan method returns what the lookup specifies |
| Functions.Scan | src/ast/function.h:189-197 | the scan loop returns the first entry matching hash and arity, or none |
| Functions.FirstWithHash | src/ast/function.h:189-196 | an entry other than binary '-' is found by its own hash whenever its arity admits the count |
| Functions.NoneWithHash | src/ast/function.h:189-197 | an entry with a unique identifier is not found by its hash when its arity rejects the count |
| Functions.FoundTakesArguments | src/ast/function.h:191-193 | a successful lookup with a count narrowed to 8 bits means at least one argument |
| Functions.NoNullaryLookup | src/ast/function.h:185-198 | no identifier has an overload taking zero arguments |
| Functions.NoNullary | src/ast/function.h:191-193 | no catalog entry admits zero arguments |
| Functions.SameSearch | src/ast/function.h:194 | where hash equality and identifier equality agree, the hash search returns what a search by identifier text returns |
| Functions.FindMatchesText | src/ast/function.h:185-198 | for a catalog identifier, the lookup by hash is the lookup by identifier text |
| Functions.Identifiers | src/ast/function.h:176-183 | IDENTIFIERS contains every catalog identifier |
| Functions.CollectIdentifiers | src/ast/function.h:176-183 | the loop collects exactly the identifiers of the 21 entries |
| Functions.LookupByStoredHash | src/ast/function.h:187-194 | any identifier that hashes like entry k is looked up exactly as entry k's stored hash is |
| Functions.LookupOwnIdentifier | src/ast/function.h:187-194 | looking up an entry's own identifier searches by its stored hash |
| Functions.FindMinus | src/ast/function.h:146-152 | "-" with one argument is unary minus (entry 0) and with two is binary minus (entry 6) |
| Functions.MinusArities | src/ast/function.h:146-152 | every identifier hashing like "-" resolves to entry 0 for one argument and to entry 6 for two |
| Functions.FindSqrt | src/ast/function.h:169 | sqrt has its one-argument overload and no two-argument one |
| Functions.SqrtArities | src/ast/function.h:169 | every identifier hashing like "sqrt" resolves for one argument and not for two |
| Functions.FindMin | src/ast/function.h:171 | min has no one-argument overload, and with three arguments it resolves (DYNAMIC, minimum 2) |
| Functions.MinArities | src/ast/function.h:171 | every identifier hashing like "min" fails for one argument and resolves for three |
| Functions.MultiplicationFound | src/parser/parser.cpp:163 | get("*", 2) is the infix multiplication entry |
| Functions.FindPlus | src/ast/function.h:151 | "+" is not a unary operator and is binary addition with two arguments |
| Functions.PlusNotUnary | src/ast/function.h:151 | no identifier hashing like "+" has a one-argument overload |
| Functions.PlusBinary | src/ast/function.h:151 | every identifier hashing like "+" resolves to addition with two arguments |
| Functions.FindPower | src/ast/function.h:147 | "**" with two arguments is exponentiation |
| Functions.PowerBinary | src/ast/function.h:147 | every identifier hashing like "**" resolves to exponentiation with two arguments |
| Lexing.TokenString | src/parser/lexer.h:26-36 | a character, name or identifier token prints as exactly the text that the lexer read it from (the text the token describes); a number prints through the formatter |
| Lexing.QuotedToken | src/parser/lexer.h:26-36 | every character, name or identifier token of the lexed stream prints as the input text at its column, so "unexpected '...'" quotes the input |
| Lexing.CategoryOf | src/parser/lexer.cpp:19-30 | letters and '_' are ALPHA, digits and '.' are DIGIT, isspace characters are WHITESPACE, and all the rest are SYMBOL |
| Lexing.RunsJoin | src/parser/lexer.cpp:41-53 | the runs of the first n characters spell those characters |
| Lexing.RunsUniform | src/parser/lexer.cpp:41-53 | every run is non-empty and all of one category |
| Lexing.RunsAlternate | src/parser/lexer.cpp:45-50 | neighbouring runs differ in category |
| Lexing.SegmentsCorrect | src/parser/lexer.cpp:35-55 | the segmentation of a non-empty string spells it with uniform, alternating, maximal runs |
| Lexing.Segments | src/parser/lexer.cpp:35-55 | defines the segmentation as the runs of the whole string (its properties are Lexing.SegmentsCorrect) |
| Lexing.CategorizeStep | src/parser/lexer.cpp:43-51 | one pass of the loop body extends the runs of the first i characters to those of the first i+1 |
| Lexing.Categorize | src/parser/lexer.cpp:35-55 | the loop returns the segmentation of the string |
| Lexing.PieceLength | src/parser/lexer.cpp:106-116 | the piece taken is the longest prefix that is a catalog identifier, or one character when there is none |
| Lexing.FrontPieceIsLongest | src/parser/lexer.cpp:106-116 | the front piece is an identifier token or a single non-identifier character, and no longer prefix is an identifier |
| Lexing.SplitSymbolsFront | src/parser/lexer.cpp:102-119 | splitting a symbol run takes the longest front piece and then splits the remainder |
| Lexing.SplitSymbolsSpelled | src/parser/lexer.cpp:102-119 | the pieces of a symbol run spell it exactly |
| Lexing.SplitSymbolsWellFormed | src/parser/lexer.cpp:106-116 | every piece is an identifier or a single non-identifier character |
| Lexing.SplitSymbolsMaximal | src/parser/lexer.cpp:106-116 | every piece is the longest identifier prefix of what remains of the run |
| Lexing.SplitSymbols | src/parser/lexer.cpp:102-119 | defines the split of a symbol run: the longest identifier piece, then the rest (its properties are the SplitSymbols lemmas above) |
| Lexing.TakePiece | src/parser/lexer.cpp:106-116 | the suffix-shortening loop yields the front piece and its token |
| Lexing.SplitSymbolRun | src/parser/lexer.cpp:102-119 | the symbol loop yields the split of the run |
| Lexing.PieceItemsTile | src/parser/lexer.cpp:102-119 | the symbol tokens sit at consecutive columns, each faithful to its text, and cover the run without gaps |
| Lexing.SegmentItemsTile | src/parser/lexer.cpp:81-127 | one segment yields tokens that tile its columns, and yields none exactly when it is white space |
| Lexing.Prepend | src/parser/lexer.cpp:67-75 | a tiled block or white space in front of a laid-out stream is still laid out |
| Lexing.ItemsFromLaidOut | src/parser/lexer.cpp:66-129 | the tokens of a segmentation read the input from the starting column to its end |
| Lexing.LexLaidOut | src/parser/lexer.cpp:58-130 | each token but EOL is faithful to the input text at its column, only white space lies between tokens, and EOL sits at column &#124;input&#124; |
| Lexing.HandleSegment | src/parser/lexer.cpp:81-127 | the switch on the category emits that segment's tokens |
| Lexing.SegmentLoop | src/parser/lexer.cpp:77-129 | the loop over all segments, followed by handle_segment(" ", EOL), emits the tokens the segmentation specifies |
| Lexing.LexItems | src/parser/lexer.cpp:58-130 | the constructor's work produces the token stream of the input |
| Lexing.Lex | src/parser/lexer.cpp:58-130 | defines the lexed items: the tokens of each segment at their columns, then EOL (its properties are Lexing.LexLaidOut and Lexing.LexStreamOk) |
| Lexing.LexStream | src/parser/lexer.h:57-59 | defines the two buffers the constructor fills from the lexed items (its properties are Lexing.LexStreamOk) |
| Lexing.LexStreamOk | src/parser/lexer.cpp:58-130 | the two buffers have the same, non-zero length, EOL is the last token and the only EOL, it sits at column &#124;input&#124;, and columns strictly increase |
| Lexing.LaidOutInOrder | src/parser/lexer.cpp:66-75 | in a laid-out stream, every token before EOL starts inside the input and before the next token |
| Lexing.OrderedStreamOk | src/parser/lexer.cpp:71-72 | tokens in increasing columns that end with EOL fill well-formed buffers |
| Lexing.Stream.Advance | src/parser/lexer.cpp:144-149 | discard moves the cursor one token on, and stays on the last token |
| Lexing.Stream.StartBefore | src/parser/lexer.cpp:151-157 | last_token_start is the column of the previous token, and of the first one at cursor 0, so it never passes the current column |
| Lexing.Lexer.constructor | src/parser/lexer.cpp:58-130 | the buffers are the token stream of the input and the cursor is 0 |
| Lexing.Lexer.Valid | src/parser/lexer.h:57-59 | the object invariant: the buffers are a well-formed stream and the cursor is inside them (kept by every method) |
| Lexing.Lexer.Peek | src/parser/lexer.cpp:132-135 | peek returns the token under the cursor, which is EOL on the last position |
| Lexing.Lexer.Discard | src/parser/lexer.cpp:144-149 | the cursor advances unless it is on the last token, and the buffers do not change |
| Lexing.Lexer.Read | src/parser/lexer.cpp:137-142 | read returns the token peek would have returned, then discards |
| Lexing.Lexer.LastTokenStart | src/parser/lexer.cpp:151-157 | the column of the previous token, at or before the current one |
| Tree.PrecedenceOf | src/ast/ast.cpp:77-84 | only a call of a binary infix operator binds looser than L1: literals, variables, prefix operators and routine calls are at L1 |
| Tree.OperandParens | src/ast/ast.cpp:11-19 | an operand is parenthesised exactly when it is a call that binds no tighter than the operator |
| Tree.TightestOperand | src/ast/ast.cpp:11-19 | under an operator at L1 (a prefix operator or '**') an operand is parenthesised exactly when it is a call, routine calls included |
| Tree.LooserOperand | src/ast/ast.cpp:11-19 | under an operator looser than L1 only a binary infix call is ever parenthesised |
| Tree.RenderBinary | src/ast/ast.cpp:20-36 | a two-argument infix call renders as operand, spaced identifier, operand |
| Tree.VariableOperand | src/ast/ast.cpp:101-104 | a variable operand renders as its identifier, without parentheses |
| Tree.RenderDifference | src/ast/ast.cpp:26-35 | a - b renders with the spaced delimiter |
| Tree.RenderProduct | src/ast/ast.cpp:26-35 | a * b renders with the spaced delimiter |
| Tree.RenderLooserOperand | src/ast/ast.cpp:15-16 | a difference inside a product is parenthesised: "(a - b) * c" |
| Tree.RenderTighterOperand | src/ast/ast.cpp:15-18 | a product inside a difference is not: "a * b - c" |
| Tree.RenderEqualOperand | src/ast/ast.cpp:15-16 | an operand of equal precedence is parenthesised: "a - (b - c)" |
| Tree.RenderDoubleNegation | src/ast/ast.cpp:20-23 | a unary call renders as identifier then operand, and a nested negation is parenthesised: "-(-x)" |
| Tree.RenderRoutine | src/ast/ast.cpp:40-51 | a routine call renders as identifier and comma-separated arguments in parentheses |
| Tree.Operand | src/ast/ast.cpp:11-19 | defines format_operand (its property is Tree.OperandParens) |
| Tree.InfixText | src/ast/ast.cpp:9-37 | defines format_infix (its properties are Tree.RenderBinary and Tree.RenderDoubleNegation) |
| Tree.RoutineText | src/ast/ast.cpp:40-51 | defines format_routine (its property is Tree.RenderRoutine) |
| Tree.Render | src/ast/ast.cpp:86-106 | defines Ast::to_string (Tree.ToString is proved to compute it) |
| Tree.FormatOperand | src/ast/ast.cpp:11-19 | the method renders one operand as specified |
| Tree.FormatInfix | src/ast/ast.cpp:9-37 | the loop renders an infix call as specified (unary prefix form, or operands joined by " op ") |
| Tree.FormatRoutine | src/ast/ast.cpp:40-51 | the loop renders a routine call as specified |
| Tree.ToString | src/ast/ast.cpp:86-106 | the method renders every tree as specified |
| Tree.EqualIsStructural | src/ast/ast.cpp:113-134 | when double_equality is exact equality, tree equality is structural equality |
| Tree.Equal | src/ast/ast.cpp:113-134 | defines operator== with the supplied double_equality (its properties are Tree.EqualIsStructural, Tree.EqualSymmetric and Tree.EqualReflexive) |
| Tree.EqualSymmetric | src/ast/ast.cpp:113-134 | tree equality is symmetric when double_equality is |
| Tree.EqualReflexive | src/ast/ast.cpp:113-134 | tree equality is reflexive when double_equality is |
| Tree.Copy | src/ast/ast.cpp:108-111 | a copy equals the original |
| Tree.CopyArgs | src/ast/ast.cpp:54-62 | copy_args returns the arguments in order, each copied |
| Parsing.PeekFunction | src/parser/parser.cpp:28-38 | an identifier token gives its lookup with the arity, anything else gives none, and a result admits the arity |
| Parsing.PeekFunctionAt | src/parser/parser.cpp:28-38 | the method over the lexer returns what the function specifies |
| Parsing.ClimbsHigher | src/parser/parser.cpp:60-69 | an operator that binds tighter passes the raised minimum of the recursive call |
| Parsing.Expression | src/parser/parser.cpp:42-46 | a parsed expression consumes at least one token and has no empty calls |
| Parsing.Climb | src/parser/parser.cpp:49-75 | the climb never moves the cursor back, and moves it forward when it starts from a given operator |
| Parsing.Operator | src/parser/parser.cpp:53 | the operator of a round is `from` when set, and otherwise a binary lookup of the token |
| Parsing.Round | src/parser/parser.cpp:55-72 | a round consumes the operator and its operand and builds a call without empty calls |
| Parsing.ClimbThrough | src/parser/parser.cpp:53-74 | with an acceptable operator, the climb fails with the round's error or continues after the round |
| Parsing.ClimbStops | src/parser/parser.cpp:53-74 | with no acceptable operator, the climb returns the left operand where it stands |
| Parsing.RoundThrough | src/parser/parser.cpp:55-72 | a round fails with the operand's or the inner loop's error, or returns Call(fn, lhs, rhs) |
| Parsing.Inner | src/parser/parser.cpp:60-71 | the inner loop never moves the cursor back and keeps trees free of empty calls |
| Parsing.Primary | src/parser/parser.cpp:79-128 | a primary expression consumes at least one token |
| Parsing.Unit | src/parser/parser.cpp:81-126 | a unit consumes at least one token |
| Parsing.RoutineCall | src/parser/parser.cpp:131-152 | a routine call consumes at least the parenthesis |
| Parsing.Overload | src/parser/parser.cpp:146-151 | the call resolves exactly when get finds an overload for the count narrowed to 8 bits |
| Parsing.Args | src/parser/parser.cpp:137-144 | the argument loop stops on ')' and only adds arguments |
| Parsing.Shorthand | src/parser/parser.cpp:156-171 | the shorthand keeps the cursor or moves it forward |
| Parsing.ParseStream | src/parser/parser.cpp:174-182 | a successful parse has no empty calls |
| Parsing.ParseInput | src/parser/parser.cpp:174-182 | parse fails with the stod exception exactly when a numeral does not convert |
| Parsing.ParseExpression | src/parser/parser.cpp:42-46 | the method's result and final cursor are those of the specification |
| Parsing.ParsePrecedence | src/parser/parser.cpp:49-75 | the outer loop's result and final cursor are those specified |
| Parsing.ParseRound | src/parser/parser.cpp:55-72 | one pass of the outer loop body is as specified |
| Parsing.ParseTighter | src/parser/parser.cpp:60-71 | the inner loop is as specified |
| Parsing.ParsePrimary | src/parser/parser.cpp:79-128 | parse_primary is as specified |
| Parsing.ParseUnit | src/parser/parser.cpp:86-126 | the unit lambda is as specified |
| Parsing.ParseRoutineCall | src/parser/parser.cpp:131-152 | parse_routine_call is as specified |
| Parsing.ParseShorthand | src/parser/parser.cpp:156-171 | parse_shorthand is as specified |
| Parsing.Parse | src/parser/parser.cpp:174-182 | parse returns the specified outcome for every input |
| ParserProperties.ClimbFromFails | src/parser/parser.cpp:53-70 | a climb that starts from a given operator never returns normally, because `from` is never cleared |
| ParserProperties.InnerNeverCombines | src/parser/parser.cpp:60-71 | the inner loop either leaves the operand as it is or fails, and it fails exactly when a tighter operator follows |
| ParserProperties.PrimaryStep | src/parser/parser.cpp:79-128 | step for the worked examples, one unfolding of the routine: a primary is a unit followed by the shorthand check |
| ParserProperties.ExpressionStep | src/parser/parser.cpp:42-46 | step for the worked examples, one unfolding of the routine: an expression is a primary followed by a climb from LOWEST |
| ParserProperties.InnerStops | src/parser/parser.cpp:60-63 | step for the worked examples, one unfolding of the routine: with no tighter operator next, the inner loop returns the operand unchanged |
| ParserProperties.InnerEntersClimb | src/parser/parser.cpp:60-70 | with a tighter operator next, the inner loop fails with the recursive climb's error |
| ParserProperties.UnitName | src/parser/parser.cpp:96-99 | step for the worked examples, one unfolding of the routine: a name is a variable |
| ParserProperties.UnitNumber | src/parser/parser.cpp:118-121 | step for the worked examples, one unfolding of the routine: a number is a literal |
| ParserProperties.UnitParenthesis | src/parser/parser.cpp:88-95 | '(' parses a nested expression and fails with "expected ')'" unless ')' follows |
| ParserProperties.UnitPrefix | src/parser/parser.cpp:108-116 | an identifier not followed by '(' is a unary call, or fails with "function is not a unary operator" |
| ParserProperties.UnitRoutine | src/parser/parser.cpp:104-107 | step for the worked examples, one unfolding of the routine: an identifier followed by '(' is a routine call |
| ParserProperties.ShorthandStops | src/parser/parser.cpp:158-170 | step for the worked examples, one unfolding of the routine: when no primary follows, the shorthand returns the left operand |
| ParserProperties.ShorthandStep | src/parser/parser.cpp:158-166 | step for the worked examples, one unfolding of the routine: when a primary follows, it multiplies the left operand by that primary |
| ParserProperties.ArgsClose | src/parser/parser.cpp:137 | step for the worked examples, one unfolding of the routine: ')' ends the arguments |
| ParserProperties.ArgsFirst | src/parser/parser.cpp:139-140 | step for the worked examples, one unfolding of the routine: the first argument needs no comma |
| ParserProperties.ArgsNext | src/parser/parser.cpp:139-142 | step for the worked examples, one unfolding of the routine: later arguments follow a ',' |
| ParserProperties.RoutineStep | src/parser/parser.cpp:131-152 | step for the worked examples, one unfolding of the routine: a routine call is the argument loop followed by the overload lookup |
| ParserProperties.ParseStreamStep | src/parser/parser.cpp:174-182 | step for the worked examples, one unfolding of the routine: parse returns the expression when EOL follows, and fails with "unexpected" otherwise |
| ParserProperties.PrimaryAtEnd | src/parser/parser.cpp:81-84 | at EOL, parse_primary fails with "expected an expression" |
| ParserProperties.VariableAt | src/parser/parser.cpp:96-99 | a name not followed by a primary parses as a variable, consuming one token |
| ParserProperties.LiteralAt | src/parser/parser.cpp:118-121 | a number not followed by a primary parses as a literal, consuming one token |
| ParserProperties.NothingToParse | src/parser/parser.cpp:174-177 | a stream holding only EOL fails with "expected an expression" at its column |
| ParserProperties.RoundOverName | src/parser/parser.cpp:55-72 | a round over a name with no tighter operator after it builds Call(fn, lhs, name) |
| ParserProperties.RoundOverLeaf | src/parser/parser.cpp:55-72 | a round over a one-token operand, with no tighter operator after it, builds the call |
| ParserProperties.RoundCombines | src/parser/parser.cpp:55-72 | a round builds Call(fn, lhs, rhs) from the operand the inner loop leaves |
| ParserProperties.ClimbAfterName | src/parser/parser.cpp:53-74 | after a successful round the climb continues from the new left operand |
| ParserProperties.ClimbRoundFails | src/parser/parser.cpp:53-74 | a failing round fails the climb |
| ParserProperties.ClimbOverName | src/parser/parser.cpp:53-74 | the climb folds `op name` into the left operand and goes on |
| ParserProperties.LeftNesting | src/parser/parser.cpp:49-75 | `a op b op d` with an operator that is not right-associative parses as (a op b) op d |
| ParserProperties.OperatorAt | src/parser/parser.cpp:28-38 | step for the worked examples, one unfolding of the routine: an identifier with a binary overload is the operator of the round |
| ParserProperties.ExpressionOverName | src/parser/parser.cpp:42-46 | an expression that starts with a lone name climbs from that variable |
| ParserProperties.SubtractionNestsLeft | src/parser/parser.cpp:49-75 | `a - b - d` parses as (a - b) - d |
| ParserProperties.ClimbAtEnd | src/parser/parser.cpp:53-57 | a climb from a given operator at EOL fails with "expected an expression" |
| ParserProperties.InnerClimbAtEnd | src/parser/parser.cpp:60-71 | in `x p y t z` with a tighter t, the inner recursion fails at the final EOL |
| ParserProperties.InnerFailureEndsParse | src/parser/parser.cpp:49-75 | that failure is the failure of the whole parse |
| ParserProperties.ExpressionOverNumber | src/parser/parser.cpp:42-46 | an expression that starts with a lone number climbs from that literal |
| ParserProperties.RoundOverNumberFails | src/parser/parser.cpp:55-72 | a round over a number fails when the inner loop fails |
| ParserProperties.RoundInnerFails | src/parser/parser.cpp:55-72 | a round fails with the inner loop's error |
| ParserProperties.TighterOperatorFails | src/parser/parser.cpp:49-75 | `x p y t z` with t binding tighter than p fails with "expected an expression" at the last column |
| ParserProperties.SumOfProductFails | src/parser/parser.cpp:49-75 | `x + y * z` fails with "expected an expression" |
| ParserProperties.ProductBindsTighter | src/parser/parser.cpp:60-62 | multiplication binds tighter than addition |
| ParserProperties.PowerBindsTighter | src/parser/parser.cpp:60-62 | right-associative ** re-enters the inner loop at equal precedence |
| ParserProperties.PowerChainFails | src/parser/parser.cpp:49-75 | `x ** y ** z` fails with "expected an expression" |
| ParserProperties.ShorthandNestsRight | src/parser/parser.cpp:156-171 | `n x y` parses as n * (x * y) |
| ParserProperties.PrefixApplies | src/parser/parser.cpp:108-116 | an identifier with a unary overload applies to the following primary |
| ParserProperties.SquareRootAsPrefix | src/parser/parser.cpp:108-116 | `sqrt n` parses as sqrt(n) |
| ParserProperties.PrefixRejected | src/parser/parser.cpp:110-113 | an identifier without a unary overload fails with "function is not a unary operator" |
| ParserProperties.PlusIsNotPrefix | src/parser/parser.cpp:110-113 | `+ n` fails that way |
| ParserProperties.EmptyCallFails | src/parser/parser.cpp:137-150 | a routine call with no arguments has no overload |
| ParserProperties.EmptyRoutineRejected | src/parser/parser.cpp:137-150 | `f()` fails with "no overload found ... taking 0 arguments" |
| ParserProperties.RoutineWithArgs | src/parser/parser.cpp:131-152 | after the arguments and ')', the call resolves its overload, reporting errors at the ')' column |
| ParserProperties.OverloadMissing | src/parser/parser.cpp:147-150 | no overload gives the "no overload found" error with the count |
| ParserProperties.OverloadFound | src/parser/parser.cpp:147-151 | a found overload gives Call(fn, args) |
| ParserProperties.ArgsOfTwo | src/parser/parser.cpp:137-144 | `(a, b)` gives the two variables, stopping at ')' |
| ParserProperties.CallOfTwo | src/parser/parser.cpp:131-152 | `f(a, b)` with a two-argument overload is Call(f, a, b) |
| ParserProperties.RoutineOfTwo | src/parser/parser.cpp:174-182 | the whole input `f(a, b)` parses to Call(f, a, b) |
| ParserProperties.UnclosedParenthesis | src/parser/parser.cpp:88-93 | `(a` fails with "expected ')'" |
| ParserProperties.TrailingToken | src/parser/parser.cpp:179-180 | `a)` fails with "unexpected ')'" |
| ParserProperties.ExpressionReported | src/parser/parser.cpp:42-46 | a failing parse_expression reports at last_token_start() for a cursor at or after where it started |
| ParserProperties.ClimbReported | src/parser/parser.cpp:49-75 | the same for parse_precedence |
| ParserProperties.RoundReported | src/parser/parser.cpp:55-72 | the same for one round of its outer loop |
| ParserProperties.InnerReported | src/parser/parser.cpp:60-71 | the same for its inner loop |
| ParserProperties.PrimaryReported | src/parser/parser.cpp:79-128 | the same for parse_primary |
| ParserProperties.UnitReported | src/parser/parser.cpp:86-126 | the same for the unit lambda, each of whose four messages is raised after reading a token |
| ParserProperties.RoutineCallReported | src/parser/parser.cpp:131-152 | the same for parse_routine_call |
| ParserProperties.ArgsReported | src/parser/parser.cpp:137-144 | the same for its argument loop |
| ParserProperties.ShorthandReported | src/parser/parser.cpp:156-171 | the same for parse_shorthand |
| ParserProperties.ErrorsAtTokenStarts | src/parser/parser.cpp:20-25 | every error parse returns is raised at last_token_start(): its column is the start of a token of the stream, at most the column of EOL |
| ParserProperties.SyntaxErrorInInput | src/parser/parser.cpp:174-182 | a syntax error of parse(input) has a column of at most &#124;input&#124; |
| ParserProperties.UnitInvalidToken | src/parser/parser.cpp:122-125 | a character token other than '(' fails with "invalid token" quoting the character, at its own column |
| ParserProperties.InvalidTokenRejected | src/parser/parser.cpp:122-125 | an input that is one such character is rejected that way |
| ParserProperties.ArgsBadSeparator | src/parser/parser.cpp:139-142 | after an argument, a token other than ',' or ')' fails with "expected ',' or ')'" at that token |
| ParserProperties.MissingSeparator | src/parser/parser.cpp:137-144 | `s(a;` is rejected that way, at the column of ';' |
| Engine.FlattenedShape | src/engine/engine.cpp:17-53 | leaves are unchanged, and a call stays a call of the same function |
| Engine.Contribution | src/engine/engine.cpp:33-50 | defines what one flattened argument adds: its own arguments when it is spliced, else itself (no contract) |
| Engine.SplicedUpTo | src/engine/engine.cpp:26-51 | defines the new argument list after the first n arguments (its properties are Engine.SplicedIsConcatenation and Engine.SplicedLeaves) |
| Engine.Flattened | src/engine/engine.cpp:17-53 | defines flatten (Engine.Flatten is proved to compute it) |
| Engine.SplicedIsConcatenation | src/engine/engine.cpp:26-51 | the new argument list is the in-order concatenation, over the arguments, of the flattened argument's arguments where it is spliced and of the flattened argument itself elsewhere |
| Engine.FlattenKeepsLeaves | src/engine/engine.cpp:17-53 | flattening keeps every literal and variable and their left-to-right order |
| Engine.SplicedLeaves | src/engine/engine.cpp:26-51 | the spliced prefix has the leaves of the first n arguments, in order |
| Engine.Flatten | src/engine/engine.cpp:17-53 | the recursive method with its splicing loop computes the specified flattening |
| Engine.EvaluateExpr | src/engine/engine.cpp:61-64 | evaluate_expr is flatten |
| Engine.EvaluateStr | src/engine/engine.cpp:56-59 | evaluate_str parses and then flattens, passing parse errors through |
| Engine.EvaluatedStr | src/engine/engine.cpp:56-59 | defines evaluate_str: the parse, flattened, or the parse failure (its properties are Engine.EvaluatedStrSettled) |
| Engine.EvaluatedStrSettled | src/engine/engine.cpp:56-64 | evaluate_str fails exactly when parse does, with the same error, and otherwise returns a flat tree that flattening leaves alone |
| Engine.NoneKeepsArity | src/engine/engine.cpp:33-38 | a non-associative function splices nothing, so each argument is only flattened in place |
| Engine.NoneCallKeepsArity | src/engine/engine.cpp:33-38 | a call of a non-associative function keeps its argument count |
| Engine.SplicedOfFlat | src/engine/engine.cpp:26-51 | arguments that are already flat and not splicable are kept as they are |
| Engine.FlatIsFixed | src/engine/engine.cpp:17-53 | flattening a flat tree is a no-op |
| Engine.SplicedFirst | src/engine/engine.cpp:34 | for a left-associative function the first argument of the result is not a call of the same function |
| Engine.SplicedLast | src/engine/engine.cpp:35 | for a right-associative function the last argument of the result is not a call of the same function |
| Engine.FlattenedIsFlat | src/engine/engine.cpp:17-53 | flattening a tree without empty calls gives a flat tree without empty calls |
| Engine.FlattenIdempotent | src/engine/engine.cpp:11-16 | flattening twice is flattening once, for trees without empty calls |
| Engine.FlattenOne | src/engine/engine.cpp:26-52 | a one-argument call keeps its function and takes what its flattened argument contributes |
| Engine.FlattenTwo | src/engine/engine.cpp:26-52 | a two-argument call concatenates the contributions of both arguments in order |
| Engine.LeavesFixed | src/engine/engine.cpp:19-20 | a call of two leaves is already flat |
| Engine.EmptyCallBreaksIdempotence | src/engine/engine.cpp:24-52 | with an empty call inside, a second pass changes the tree again |
| Engine.AdditionRegroups | src/engine/engine.cpp:11-16 | (x + y) + z and x + (y + z) both flatten to +(x, y, z) |
| Engine.SubtractionLeans | src/engine/engine.cpp:34 | left-associative subtraction splices only its first argument |
| Engine.DoubleNegationCollapses | src/engine/engine.cpp:33-46 | -(-x) flattens to -(x), since flatten does not check the arity type |
| Predicates.Tagged | src/engine/predicate.h:72-79 | tagging a taggable predicate gives a Tag, which is not itself taggable |
| Predicates.TaggedRoundTrip | src/engine/predicate.h:72-79 | the Tag holds the predicate and the tag it was built from |
| Predicates.TaggedInjective | src/engine/predicate.h:72-79 | tags are equal exactly when predicates and tags are |
| Predicates.FromNumber | src/engine/predicate.h:69 | a number converts to a literal predicate with a value |
| Predicates.FromNumberValue | src/engine/predicate.h:27-32 | the literal holds exactly that number, and the conversion is injective |
| Predicates.CallByName | src/engine/predicate.h:81-92 | the by-name constructor resolves exactly when get finds an overload for the argument count, keeps the arguments, and names a matching entry |
| Predicates.MakeCall | src/engine/predicate.h:81-92 | the constructor's lookup gives the specified predicate |
| Predicates.CallByNameFirst | src/engine/predicate.h:81-86 | the function resolved is the first matching catalog entry |
| Predicates.SqrtPatternArity | src/engine/predicate.h:81-92 | Call("sqrt", p) resolves to sqrt and Call("sqrt", p, q) finds no overload |
| Predicates.MinusPatterns | src/engine/predicate.h:81-86 | Call("-", p) is unary minus and Call("-", p, q) binary minus |
| Results.FromAst | src/engine/result.h:41-42 | a tree converts to a fixed-tree result |
| Results.FromAstKeepsTree | src/engine/result.h:41-42 | the result holds that tree, and the conversion is injective |
| Results.CallByName | src/engine/result.h:45-56 | the by-name constructor resolves exactly when get finds an overload for the argument count, and keeps the arguments |
| Results.MakeCall | src/engine/result.h:45-56 | the constructor's lookup gives the specified result |
| Results.CallByNameFirst | src/engine/result.h:51-56 | the function resolved is the first matching catalog entry |
| Results.MinTemplateArity | src/engine/result.h:51-56 | Call("min", a) finds no overload and Call("min", a, b, c) resolves to min |

## Left out

- `src/main.cpp` (the read-evaluate-print loop) and all console I/O are not part of this model.
- `src/engine/rule.h` and `src/engine/rule.cpp` (matching and applying rules) are not part of this model. The source leaves applying a rule unimplemented.
- Floating point is not modelled. `std::stod`, `std::format("{}", double)` and `double_equality` are parameters. A numeral that `std::stod` rejects makes `parse` fail with `InvalidNumber`, standing for the escaping `std::invalid_argument`.
- Character classes follow the "C" locale on ASCII. Each character is hashed as one byte (its code modulo 256, read as a signed char). No encoding is modelled.
- Memory management, move semantics and pointer identity are left out. A function pointer is its index in the catalog, and `Call::Call(const Call&)` is `Tree.Copy`.
- Lexing.Categorize: requires a non-empty string. For the empty string the source reads the uninitialised `prev_cat`. The model lexes the empty input as no segments (`Lexing.InputSegments`), so the stream is only EOL.
- Predicates.Tagged: requires an `Any` or `Literal` predicate. `Variable`, `Call` and `Tag` either redeclare `operator[]` without a definition or do not have one.
- Predicates.CallByName: models the failed `assert(fn)` of a lookup that found nothing as `None`. The count passed to `get` is narrowed to `std::uint8_t` (`|args| % 256`). The same holds for `Results.CallByName` and `Parsing.Overload`.
- Parsing.ParseInput: the lexer's identifier set is `IDENTIFIERS`. The set is modelled as a value (`Functions.Identifiers`), not as a hash set.
- The step methods and lemmas (`Lexing.CategorizeStep`, `Lexing.Prepend` and the lemmas it uses, `Parsing.ParseRound`, and the `Round*` and `HashOf*` lemmas in `Hashing`) split proofs into small steps. They add no behaviour.
