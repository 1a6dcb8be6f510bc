# lijs compiler core in Dafny

lijs compiles a small Lisp-flavoured language to a JavaScript syntax tree in
three stages, and this project models all three:

- **Tokenizer** (`tokenizer.dfy`, `tokenizer_properties.dfy`). This is `tokenizer(input)`.
  - It makes one forward scan with a cursor. Spaces are skipped.
  - It emits one-character punctuation, and matches six keywords as bare prefixes.
  - It reads identifier, number and string runs, and `//` and `/*` comments.
  - Any other character stops the scan with an error.
  - The scan is the method `Tokenize`, a `while` loop over `pos` that pushes onto `out`. It is proved equal to the function `Lex`, which is built from one scan step, `Step`.
  - The properties are proved about `Lex` and `Step`.
- **Parser** (`ast.dfy`, `ast_properties.dfy`). This is `toAST(tokens)`.
  - It is a recursive descent over one shared cursor. The class `Parser` holds the token list and `pos`, which plays the role of `currentIndex`.
  - Each of `process`'s productions is a method. Each method is proved equal to a function (`ParseNode`, `ParseUntil`, `ParseBody`, …) of the tokens and the cursor it started from. The function gives both the result and the new cursor.
  - `ToAST` is the top-level loop.
  - Every error the parser throws has its own `ParseError`. The places where the JavaScript crashes are errors too:
    - reading past the end of the token list gives `UnexpectedEnd`;
    - taking `.type` of a missing `process()` result gives `MissingNode`.
- **Transform** (`transform.dfy`, `transform_properties.dfy`). This is `transformAST(ast)`.
  - It is a pure visitor from the parser's tree to ESTree nodes. Only Program, FunctionCall, FunctionDefinition, Array, Assignment and the literal leaves have handlers.
  - Every other node comes back unchanged, as `Untransformed`.
- **Pipeline** (`compiler.dfy`). The three stages composed as in `compiler(input)`, without the final code-generation step.

The transform is older than the parser. Its FunctionDefinition handler builds a FunctionDeclaration whose body returns `visit(node.value)`, but the parser never sets a definition's `value`: it stores the definition's statements in `body`. In the model this field is `legacyValue`, and the parser always leaves it `None`. So every program in which the visitor reaches a definition makes the transform crash while that declaration is being built. `DefinitionWithoutValueFails` and `Compiler.CompileSucceeds` state this, and `Compiler.DefinitionDoesNotCompile` shows it on `def addone [ number ] (add number 1)`.

`Wrappers` holds `Option` and `Result`. They stand for JavaScript's `undefined` and for thrown errors.

## Model

| member | source | states |
|---|---|---|
| Tokenizer.RunEnd | lib/tokenizer.js:7-26 | the end of the maximal run whose first character is in one class and whose later characters are in another: every character up to it matches, the one after does not |
| Tokenizer.RestEnd | lib/tokenizer.js:7-26 | the end of the maximal run of one character class from a position: all match before it, the next does not |
| Tokenizer.Lookahead | lib/tokenizer.js:7-26 | `lookahead`'s loop collects exactly the input from the cursor to `RunEnd`, every character matching its class and the next one not |
| Tokenizer.LookaheadString | lib/tokenizer.js:28-36 | `lookaheadString` is true exactly when the input at the cursor starts with the given text |
| Tokenizer.DropLastTwo | lib/tokenizer.js:200-201 | popping twice leaves the prefix that is two characters shorter, or nothing |
| Tokenizer.PopTwice | lib/tokenizer.js:200-201 | the two `pop()` calls on the comment bucket compute `DropLastTwo` |
| Tokenizer.Split | lib/tokenizer.js:206 | `split('\n')` gives at least one part, no part contains the separator, and joining the parts gives the text back |
| Tokenizer.Step | lib/tokenizer.js:54-72 | one iteration of the scan loop either fails or strictly advances the cursor (at most two past the end, after a block comment) |
| Tokenizer.KeywordStep | lib/tokenizer.js:74-120 | the keyword rules, when they succeed, strictly advance the cursor; `TokenizerProperties.KeywordPrefixStep` states their order and tokens |
| Tokenizer.RunStep | lib/tokenizer.js:122-174 | the identifier, number and string rules, when they succeed, strictly advance the cursor; `IdentifierStep`, `NumberStep` and `StringStep` in `TokenizerProperties` state their tokens |
| Tokenizer.SymbolStep | lib/tokenizer.js:176-183 | the bracket and brace rules, when they succeed, strictly advance the cursor; `TokenizerProperties.PunctuationStep` states their tokens |
| Tokenizer.CommentStep | lib/tokenizer.js:185-212 | the comment rules, when they succeed, strictly advance the cursor and stay within two characters past the end; the `UnknownToken` fallthrough is stated by `TokenizerProperties.UnknownTokenStep` |
| Tokenizer.LexFrom | lib/tokenizer.js:54-216 | the scan from a cursor either fails or yields at most one token per character left, since every step moves the cursor forward |
| Tokenizer.Lex | lib/tokenizer.js:54-216 | `tokenizer(input)` either fails or yields no more tokens than the input has characters |
| Tokenizer.Tokenize | lib/tokenizer.js:54-216 | the scan loop over `currentPosition` and `out` returns exactly `Lex(input)`: the same tokens or the same error |
| Tokenizer.ScanOne | lib/tokenizer.js:54-72 | the loop body up to the keyword rules computes `Step` |
| Tokenizer.ScanKeyword | lib/tokenizer.js:74-120 | the keyword part of the loop body computes `KeywordStep` |
| Tokenizer.ScanRun | lib/tokenizer.js:122-174 | the identifier, number and string part of the loop body computes `RunStep` |
| Tokenizer.ScanSymbol | lib/tokenizer.js:176-183 | the bracket part of the loop body computes `SymbolStep` |
| Tokenizer.ScanComment | lib/tokenizer.js:185-212 | the comment part of the loop body computes `CommentStep` |
| TokenizerProperties.SpacesLexToNothing | lib/tokenizer.js:58-62 | spaces never produce a token: input that is all spaces from the cursor on lexes to no tokens |
| TokenizerProperties.PunctuationStep | lib/tokenizer.js:65-72 | each of `\n $ @ ? [ ] { } ( )` yields exactly its one token and advances by one |
| TokenizerProperties.KeywordPrefixStep | lib/tokenizer.js:74-120 | the first of else, is, contains, use, as, export that is a prefix at the cursor wins, emits its token and advances by exactly its length |
| TokenizerProperties.IdentifierStep | lib/tokenizer.js:122-139 | an identifier is the maximal letter-then-letters/digits/dots run, its value is exactly that text, and the run `def` is a Definition instead |
| TokenizerProperties.NonLetterSkipsKeywords | lib/tokenizer.js:74-120 | a character that is not a letter never starts a keyword, so the scan goes on to the run rules |
| TokenizerProperties.NumberStep | lib/tokenizer.js:142-160 | a number is the maximal digit-then-digits/dots run; it fails with "invalid character ." exactly when the run ends in a dot, and otherwise is a FloatLiteral exactly when it contains a dot |
| TokenizerProperties.StringStep | lib/tokenizer.js:164-174 | a string's value is exactly the text between the quote and the next quote (possibly empty, no quote inside), both quotes are consumed, and an unterminated string takes the rest of the input |
| TokenizerProperties.LineCommentStep | lib/tokenizer.js:185-195 | a `//` comment's value is the text up to, not including, the next newline or the end of the input |
| TokenizerProperties.BlockCommentStep | lib/tokenizer.js:196-208 | a `/*` comment consumes the whole rest of the input, and its values, joined with newlines, are that rest minus its last two characters |
| TokenizerProperties.BlockCommentIsLast | lib/tokenizer.js:196-208 | from a `/*` on, the scan yields exactly one token, the MultiLineComment |
| TokenizerProperties.UnknownTokenStep | lib/tokenizer.js:212 | a step fails with `UnknownToken` of the current character exactly when no rule starts there; the only other failure is the number ending in a dot |
| TokenizerProperties.NoKeywordInPrefix | lib/tokenizer.js:74-139 | an identifier read where no keyword matched does not begin with a keyword |
| TokenizerProperties.IdentifierEmittable | lib/tokenizer.js:122-139 | the identifier rule emits a token of the shape the scan can produce |
| TokenizerProperties.NumberEmittable | lib/tokenizer.js:142-160 | a successful number rule emits a digits-only NumberLiteral or a FloatLiteral that does not end in a dot |
| TokenizerProperties.StepEmittable | lib/tokenizer.js:54-212 | every token a step emits has the shape the scan can produce, and never a kind only the parser knows |
| TokenizerProperties.LexFromEmittable | lib/tokenizer.js:54-216 | every token of a successful scan has an emittable shape |
| TokenizerProperties.KeywordNeedsNoSeparator | lib/tokenizer.js:98-104 | keywords need no separator: `use123` lexes to ImportStatement then NumberLiteral 123 |
| TokenizerProperties.TrailingDotFails | lib/tokenizer.js:142-160 | `x 1.` fails with "invalid character ." |
| Ast.ParseNode | lib/ast.js:50-381 | `process()` either fails or consumes at least one token and stays within the list |
| Ast.ParseUntil | lib/ast.js:11-18 | collecting up to a closer either fails or consumes at least the closer |
| Ast.ParseBody | lib/ast.js:4-27 | `getDefinitionBody` either fails or consumes at least one token |
| Ast.ParseReturn | lib/ast.js:67-82 | a successful return strictly advances the cursor and stays within the list; `AstProperties.ReturnRules` states its value rule |
| Ast.ParseImport | lib/ast.js:93-116 | a successful import strictly advances the cursor and stays within the list; `AstProperties.ImportRules` states its path and binding rules |
| Ast.ParseExport | lib/ast.js:118-130 | a successful export strictly advances the cursor and stays within the list; `AstProperties.ExportRules` states its name rule |
| Ast.ParseIf | lib/ast.js:132-164 | a successful if strictly advances the cursor and stays within the list and is an IfStatement; `AstProperties.IfNeedsCheck` states the check rule |
| Ast.ParseIfBranches | lib/ast.js:148-163 | a successful if strictly advances the cursor and stays within the list and is an IfStatement; `AstProperties.RightSideParsed` states the right-side rule |
| Ast.ParseIfBodies | lib/ast.js:154-163 | a successful if strictly advances the cursor and stays within the list and is an IfStatement; `AstProperties.BodyShape` states the shape of the pass body |
| Ast.ParseIfElse | lib/ast.js:156-163 | a successful else leaves the cursor within the list and gives an IfStatement; `AstProperties.IfElseRule` states when the fail body exists |
| Ast.ParseArray | lib/ast.js:166-185 | a successful array strictly advances the cursor and stays within the list; `AstProperties.ArrayRules` states its elements and closing ArrayEnd |
| Ast.ParseAssignment | lib/ast.js:187-214 | a successful assignment strictly advances the cursor and stays within the list; `AstProperties.AssignmentRules` states its name and value rules |
| Ast.ParseMake | lib/ast.js:216-232 | a successful make strictly advances the cursor and stays within the list; `AstProperties.MakeRules` states its name rule and result |
| Ast.ParseNameAndKey | lib/ast.js:237-247 | the name and key of a get or set are the two tokens after the keyword, a Literal and a Literal or StringLiteral |
| Ast.ParseGet | lib/ast.js:234-254 | a successful get strictly advances the cursor and stays within the list; `AstProperties.ObjectRules` states its result |
| Ast.ParseSet | lib/ast.js:256-279 | a successful set strictly advances the cursor and stays within the list; `AstProperties.ObjectRules` states its result |
| Ast.ParseCall | lib/ast.js:281-332 | a successful call strictly advances the cursor and stays within the list; `AstProperties.CallRules` states its name, arithmetic and argument rules |
| Ast.ParseDefinition | lib/ast.js:334-367 | a successful definition strictly advances the cursor and stays within the list; `AstProperties.DefinitionRules` states its name rule, its unread token, its parameters and its body |
| Ast.ParseIterator | lib/ast.js:369-378 | a successful iterator strictly advances the cursor and stays within the list; `AstProperties.IteratorRules` states its source and body |
| Ast.Parser.Process | lib/ast.js:50-381 | `process()` returns what `ParseNode` gives from the cursor it started at, and leaves the cursor where `ParseNode` ends |
| Ast.Parser.CollectUntil | lib/ast.js:11-18 | the `while` loop that pushes present results until the closer computes `ParseUntil` and leaves the cursor after the closer |
| Ast.Parser.GetDefinitionBody | lib/ast.js:4-27 | `getDefinitionBody()` computes `ParseBody` and the cursor it ends at |
| Ast.Parser.ProcessReturn | lib/ast.js:67-82 | computes `ParseReturn` and its cursor |
| Ast.Parser.ProcessImport | lib/ast.js:93-116 | computes `ParseImport` and its cursor |
| Ast.Parser.ProcessExport | lib/ast.js:118-130 | computes `ParseExport` and its cursor |
| Ast.Parser.ProcessIf | lib/ast.js:132-164 | computes `ParseIf` and its cursor |
| Ast.Parser.ProcessIfBranches | lib/ast.js:148-163 | computes `ParseIfBranches` and its cursor |
| Ast.Parser.ProcessIfBodies | lib/ast.js:154-163 | computes `ParseIfBodies` and its cursor |
| Ast.Parser.ProcessIfElse | lib/ast.js:156-163 | computes `ParseIfElse` and its cursor |
| Ast.Parser.ProcessArray | lib/ast.js:166-185 | computes `ParseArray` and its cursor |
| Ast.Parser.ProcessAssignment | lib/ast.js:187-214 | computes `ParseAssignment` and its cursor |
| Ast.Parser.ProcessMake | lib/ast.js:216-232 | computes `ParseMake` and its cursor |
| Ast.Parser.NameAndKey | lib/ast.js:237-247 | computes `ParseNameAndKey` and, on success, moves the cursor exactly three tokens |
| Ast.Parser.ProcessGet | lib/ast.js:234-254 | computes `ParseGet` and its cursor |
| Ast.Parser.ProcessSet | lib/ast.js:256-279 | computes `ParseSet` and its cursor |
| Ast.Parser.ProcessCall | lib/ast.js:281-332 | computes `ParseCall` and its cursor |
| Ast.Parser.ProcessDefinition | lib/ast.js:334-367 | computes `ParseDefinition` and its cursor |
| Ast.Parser.ProcessIterator | lib/ast.js:369-378 | computes `ParseIterator` and its cursor |
| Ast.ParseTop | lib/ast.js:388-393 | the top-level loop from a cursor either fails or keeps at most one node per token left, since every `process()` call consumes a token |
| Ast.ParseProgram | lib/ast.js:383-395 | `toAST(tokens)` either fails or gives a Program with no more nodes than there are tokens |
| Ast.ToAST | lib/ast.js:383-395 | the top-level loop over `currentIndex` returns exactly `ParseProgram(tokens)` |
| AstProperties.ParseNodeWellFormed | lib/ast.js:50-381 | every node `process()` returns is well formed: leaves are literal or check tokens, an if has a check token and a right side only when the check takes one, an assignment's value is never an assignment, object keys are Literal or StringLiteral, arithmetic has no right without a left, a definition has no `value` |
| AstProperties.ReturnWellFormed | lib/ast.js:67-82 | a parsed return holds a well-formed value or none |
| AstProperties.ParseUntilWellFormed | lib/ast.js:11-18 | every collected node is well formed |
| AstProperties.ParseBodyWellFormed | lib/ast.js:4-27 | every body node is well formed |
| AstProperties.IfWellFormed | lib/ast.js:132-164 | a parsed if statement is well formed |
| AstProperties.IfBranchesWellFormed | lib/ast.js:148-163 | the check and its sides give a well-formed if statement |
| AstProperties.IfBodiesWellFormed | lib/ast.js:154-163 | the pass body keeps the if statement well formed |
| AstProperties.IfElseWellFormed | lib/ast.js:156-163 | the fail body keeps the if statement well formed |
| AstProperties.CallWellFormed | lib/ast.js:281-332 | a parsed call or arithmetic node is well formed |
| AstProperties.DefinitionWellFormed | lib/ast.js:334-367 | a parsed definition is well formed, with no `value` |
| AstProperties.IteratorWellFormed | lib/ast.js:369-378 | a parsed iterator is well formed |
| AstProperties.ParseTopWellFormed | lib/ast.js:383-395 | every node the top-level loop keeps is well formed |
| AstProperties.ProgramWellFormed | lib/ast.js:383-395 | every node of a parsed Program's body is well formed |
| AstProperties.ParseUntilConsumesCloser | lib/ast.js:11-18 | a successful collection stops right after a token that closes it: `]`, `)` or a `}`-style DefinitionPoint |
| AstProperties.BodyShape | lib/ast.js:4-27 | a body opened by `{` ends right after a closing DefinitionPoint; any other body is exactly one `process()` result, so it has at most one node |
| AstProperties.AssignmentRules | lib/ast.js:187-214 | the token after `$` must be a Literal or "Variable name must be a literal" is thrown; a value that is an assignment throws "Variable value cannot be assignment"; otherwise the node has that name and value |
| AstProperties.CallRules | lib/ast.js:281-332 | `(` needs a Literal name; add/sub/mul/div/mod with more than two arguments throw, otherwise they give the arithmetic node with the first two arguments; any other name gives a FunctionCall of the arguments in order; `)` is consumed |
| AstProperties.IfNeedsCheck | lib/ast.js:141-147 | an if whose second node is not a check token throws "if statement must contain check type" |
| AstProperties.IfElseRule | lib/ast.js:156-161 | the fail body exists exactly when an ElseExpression immediately follows the pass body |
| AstProperties.LeafComesFromToken | lib/ast.js:53-64 | a Leaf result comes only from a literal or check token at the cursor, is that very token, and consumes exactly it |
| AstProperties.LeafTokenParses | lib/ast.js:53-64 | a literal or check token is returned as the node itself and consumes one token |
| AstProperties.ImportRules | lib/ast.js:93-116 | an import needs a StringLiteral path ("use statement must use string"); it has a binding exactly when `as` follows, the binding must be a Literal, and a non-Literal token after `as` throws "must assign imports to literal" |
| AstProperties.ExportRules | lib/ast.js:118-130 | an export needs a Literal name, or it throws "must export literal" |
| AstProperties.ObjectRules | lib/ast.js:234-279 | get and set need a Literal name and a Literal or StringLiteral key, or they throw; a get is then that name and key, and a set also takes the next node as its value |
| AstProperties.ArrayRules | lib/ast.js:166-185 | an array is every node up to its ArrayEnd, which it consumes |
| AstProperties.MakeRules | lib/ast.js:216-232 | make needs a Literal name, or it throws "Object name must be a literal"; it then creates the object of that name, two tokens on |
| AstProperties.ReturnRules | lib/ast.js:67-82 | a return has no value when a LineBreak or the end of the list follows it, and otherwise the next node as its value |
| AstProperties.DefinitionRules | lib/ast.js:334-367 | a definition needs a Literal name; the token after the name is skipped unread, the parameters run up to and including an ArrayEnd, the body follows, and the node has no `value` |
| AstProperties.IteratorRules | lib/ast.js:369-378 | an iterator's source is the next node and its body follows it; an error in the source is the iterator's error |
| AstProperties.RightSideParsed | lib/ast.js:148-152 | an if statement keeps its check and left side; its right side is the node right after the check exactly when the check is `is`, `kinda` or `contains`, and absent for `exists` |
| AstProperties.SeparatorsContributeNothing | lib/ast.js:84-91 | LineBreak and comment tokens are consumed and contribute no node |
| AstProperties.NumberNameRejected | test/2-ast.js:115-119 | `$ 3 1` throws VariableNameNotLiteral, whose message is "Variable name must be a literal" |
| AstProperties.ChainedAssignmentRejected | test/2-ast.js:149-153 | `$ a $ b 1` throws AssignmentValueIsAssignment, whose message is "Variable value cannot be assignment" |
| AstProperties.MessagesIdentifyErrors | lib/ast.js:50-381 | distinct thrown errors have distinct messages, so matching the message text tells which rule was broken |
| AstProperties.UnknownMessageNamesKind | lib/ast.js:380 | the "Unknown token: " message ends with the kind of the offending token |
| AstProperties.NestedArrays | test/2-ast.js:59-73 | `[ [ 1 ] 2 ]` gives an array holding an array of 1, then 2 |
| AstProperties.DefinitionSkipsUncheckedToken | lib/ast.js:346-348 | the token after a definition's name is skipped whatever it is: `def f ] ] x` parses |
| Transform.DigitsValue | lib/transform.js:93 | the number a digit run stands for; the empty run is 0 |
| Transform.DecimalText | lib/transform.js:94 | the decimal text of a number is a non-empty digit run with no leading zero |
| Transform.NumberValueOf | lib/transform.js:90-96 | a number's value is modelled exactly when its text is a non-empty digit run |
| Transform.ToIdentifier | lib/transform.js:109-114 | the Identifier is named after the `name` of a call, definition or assignment, and after the token `value` of a Literal leaf; `TransformProperties.LeafLowering`, `CallLowering`, `AssignmentLowering`, `DefinitionLowering` and `RestoreVisit` state that the name reaches the output verbatim |
| Transform.ToLiteral | lib/transform.js:90-107 | a string keeps its value and its `raw` is the value between single quotes; a number's `raw` is its text and its value is never a string |
| Transform.Visit | lib/transform.js:11-85 | the visit succeeds exactly when every definition it reaches has a `value`; the result is an ExpressionStatement exactly when a call or array has the Program as parent; a node without a handler comes back unchanged, and a handled one never does |
| Transform.VisitAll | lib/transform.js:15-17 | mapping `visit` over children succeeds exactly when every child is lowerable, and keeps their number |
| Transform.TransformProgram | lib/transform.js:3-10 | the Program becomes a Program with as many children, and succeeds exactly when every child is lowerable |
| TransformProperties.VisitAllPointwise | lib/transform.js:6-8 | child i is visited, with the same parent, to result i |
| TransformProperties.ProgramChildren | lib/transform.js:3-10 | the Program keeps the length and the order of its body, and each child is visited with the Program as parent |
| TransformProperties.WrappedOnlyAtTopLevel | lib/transform.js:19-24 | a top-level child is wrapped in an ExpressionStatement exactly when it is a call or an array |
| TransformProperties.CallLowering | lib/transform.js:11-26 | a FunctionCall becomes a CallExpression whose callee is an Identifier of the call's name and whose arguments are the visited arguments in order, wrapped exactly when the parent is the Program |
| TransformProperties.ArrayLowering | lib/transform.js:51-65 | an Array becomes an ArrayExpression of the visited elements in order, wrapped exactly when the parent is the Program |
| TransformProperties.AssignmentLowering | lib/transform.js:66-79 | an Assignment becomes an unwrapped `var` VariableDeclaration with exactly one declarator, whose id is the name and whose init is the visited value |
| TransformProperties.DefinitionLowering | lib/transform.js:27-46 | a definition with a `value` becomes a FunctionDeclaration with the definition's name, the visited arguments as params, empty `defaults`, and a block holding one return of the visited `value` |
| TransformProperties.DefinitionWithoutValueFails | lib/transform.js:40 | a definition without a `value` (as the parser always makes them) fails with the undefined-node crash |
| TransformProperties.DefinitionBodyIgnored | lib/transform.js:27-46 | the parsed body of a definition has no effect on the transform |
| TransformProperties.LeafLowering | lib/transform.js:47-50 | a Literal token becomes an Identifier of its exact text, dots included; a StringLiteral becomes a Literal quoted in `raw`; a number becomes a Literal with its text as `raw`; any other leaf is unchanged |
| TransformProperties.DecimalTextValue | lib/transform.js:93 | the decimal text of n reads back as n |
| TransformProperties.NumberLeafValue | lib/transform.js:90-96 | a NumberLiteral spelling n lowers to the Literal with value n and that text as `raw` |
| TransformProperties.RestoreAll | lib/transform.js:6-8 | restoring a list keeps its length |
| TransformProperties.RestoreVisit | lib/transform.js:11-85 | on nodes whose lowering loses nothing (definitions with a `value` and no body, numbers with a dot exactly when they are floats) the visit succeeds and `Restore` gives the node back |
| TransformProperties.RestoreVisitAllUnder | lib/transform.js:6-8 | the same round trip for a list of children, under either parent |
| TransformProperties.RestoreProgram | lib/transform.js:3-10 | the same round trip for a whole Program |
| Compiler.Compile | lib/compiler.js:6-13 | the stages run in order; a success is always an ESTree Program |
| Compiler.Compiler | lib/compiler.js:6-13 | calling `Tokenize`, `ToAST` and the transform in turn computes `Compile` |
| Compiler.ParsedLowerable | lib/transform.js:27-46 | on a parsed tree the transform succeeds exactly when it reaches no definition |
| Compiler.CompileSucceeds | lib/compiler.js:6-13 | a source text compiles exactly when it lexes, parses and no top-level node reaches a definition; if one does, the result is the transform's crash |
| Compiler.AddOneParamsParse | test/3-transform.js:117-119 | the parameter list of `def addone [ number ] (add number 1)` is `number` |
| Compiler.AddOneBodyParses | test/3-transform.js:117-119 | the body of that definition, `(add number 1)`, is an Addition of `number` and 1 |
| Compiler.AddOneDefinitionNode | lib/ast.js:334-367 | the `def` token yields a FunctionDefinition named `addone` with parameter `number`, the Addition as its body and no `value` |
| Compiler.DefinitionParses | test/3-transform.js:117-119 | that definition parses to a FunctionDefinition with no `value` |
| Compiler.DefinitionDoesNotCompile | lib/transform.js:40 | that definition parses, and then the transform crashes on it |
| Compiler.AssignmentLexes | test/3-transform.js:97-99 | `$ a 5` lexes to AssignmentOperator, Literal a, NumberLiteral 5 |
| Compiler.AssignmentParses | test/3-transform.js:97-99 | those tokens parse to one Assignment of a to 5 |
| Compiler.AssignmentCompiles | test/3-transform.js:97-116 | `$ a 5` compiles to `var a = 5`: one `var` declaration with id a and the Literal 5, not wrapped |

## Left out

- lib/hook.js: it reads files and registers a module-loader extension, both I/O. It is not part of this model.
- The code generator that `compiler(input)` calls last, lib/generate, is not part of this model. So `Compile` stops at the ESTree Program.
- Error messages are data. `util.inspect` formatting of the "Unknown token" message is left out: `UnknownToken` carries the offending character, and the parser's `UnknownToken` carries the kind name.
- Characters are Unicode scalar values, while JavaScript strings index UTF-16 code units. For a character outside the Basic Multilingual Plane, met outside a string or comment, the source's "Unknown token" error carries a lone surrogate; the model's `UnknownToken` carries the whole character. Strings and line comments keep such characters whole in both.
- Tokenizer.DropLastTwo: it removes the last two characters, while the two `pop()` calls on the block-comment bucket remove the last two UTF-16 code units. When those two units include part of a surrogate pair, the source keeps different text: for `/*ab` followed by an astral character it keeps `ab`, where the model keeps `a`. TokenizerProperties.BlockCommentStep and Tokenizer.PopTwice state the model's character-level behaviour, which agrees with the source only when the comment's last two characters lie in the Basic Multilingual Plane.
- The JavaScript regular expressions are replaced by character classes: letter, digit, `.`, not-quote, not-newline, and any character.
  - The block-comment pattern `(?!\*\/)` tests a single character and never fails, so it is modelled as "any character".
- Tokens are plain values. Import and export mutate the token object in place and return it; the model builds a fresh `ImportStatement` / `ExportStatement` node with the same fields. The aliasing is not modelled.
- Transform.NumberValueOf: `parseFloat` is modelled only for non-empty digit runs, as a natural number. A float, or a number with a dot, gets `UnmodelledNumber`. The `raw` text is always exact. A digit run above 2^53 keeps its exact value here, where `parseFloat` rounds it to the nearest double.
- TransformProperties.NumberLeafValue: the value is the exact natural number, while `parseFloat` returns a double. Digit runs above 2^53 round in the source (`9007199254740993` gives 9007199254740992), so the model's `value == n` agrees with the source only up to 2^53.
- Transform.ToIdentifier: an empty `name` is not treated specially. The source's `node.name || node.value` would then fall back to `value`, which for a call, definition or assignment is not a name. The parser only takes names from Literal tokens, and the tokenizer never makes those empty.
- Transform.Visit: JavaScript's `null` and `undefined` are not told apart. A return without a value is `ReturnStatement(None)`, passed through unchanged.
- Behaviour that only the newer tests expect has no counterpart in this code, and none of it is modelled:
  - whole-word keywords, `!` and `kinda`;
  - member expressions for dotted names;
  - lowering of `use` to `require`;
  - implicit returns and multi-statement function bodies.
  - The concrete lemmas above show the model's actual behaviour instead (`KeywordNeedsNoSeparator`, `DefinitionDoesNotCompile`).
