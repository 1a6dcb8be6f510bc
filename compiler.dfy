/**
 * The three stages of lib/compiler.js run one after the other: tokenizer, parser,
 * transform. The code generator that follows them is not part of this model.
 */
module Compiler {
  import opened Wrappers
  import T = Tokenizer
  import A = Ast
  import AP = AstProperties
  import X = Transform
  import TP = TokenizerProperties

  /** Which stage threw, and what it threw. */
  datatype CompileError =
    | LexFailed(lexError: T.LexError)
    | ParseFailed(parseError: A.ParseError)
    | TransformFailed(transformError: X.TransformError)

  /** The ESTree Program for a source text, or the first stage's error. */
  function Compile(input: string): (r: Result<X.Estree, CompileError>)
    ensures r.Success? ==> r.value.Program?
  {
    match T.Lex(input)
    case Failure(e) => Failure(LexFailed(e))
    case Success(tokens) =>
      match A.ParseProgram(tokens)
      case Failure(e) => Failure(ParseFailed(e))
      case Success(program) =>
        match X.TransformProgram(program)
        case Failure(e) => Failure(TransformFailed(e))
        case Success(tree) => Success(tree)
  }

  /** `compiler(input)` without its last step: each stage's output is the next one's input. */
  method Compiler(input: string) returns (r: Result<X.Estree, CompileError>)
    ensures r == Compile(input)
  {
    var tokens := T.Tokenize(input);
    if tokens.Failure? {
      return Failure(LexFailed(tokens.error));
    }
    var ast := A.ToAST(tokens.value);
    if ast.Failure? {
      return Failure(ParseFailed(ast.error));
    }
    var tree := X.TransformProgram(ast.value);
    if tree.Failure? {
      return Failure(TransformFailed(tree.error));
    }
    return Success(tree.value);
  }

  /** A FunctionDefinition the visitor reaches: one at the node, or below a call, array or assignment. */
  predicate ReachesDefinition(n: A.Node) {
    match n
    case FunctionDefinition(_, _, _, _) => true
    case FunctionCall(_, args) => exists c | c in args :: ReachesDefinition(c)
    case Array(elements) => exists c | c in elements :: ReachesDefinition(c)
    case Assignment(_, value) => ReachesDefinition(value)
    case _ => false
  }

  /**
   * On the parser's trees, whose definitions never carry a `value`, the
   * transform succeeds exactly when it meets no definition.
   */
  lemma {:induction false} ParsedLowerable(n: A.Node)
    requires AP.WellFormed(n)
    decreases n
    ensures X.Lowerable(n) <==> !ReachesDefinition(n)
  {
    match n
    case FunctionCall(_, args) =>
      forall c | c in args
        ensures X.Lowerable(c) <==> !ReachesDefinition(c)
      {
        ParsedLowerable(c);
      }
    case Array(elements) =>
      forall c | c in elements
        ensures X.Lowerable(c) <==> !ReachesDefinition(c)
      {
        ParsedLowerable(c);
      }
    case Assignment(_, value) =>
      ParsedLowerable(value);
    case _ =>
  }

  /**
   * A source text compiles exactly when it lexes, parses, and no top-level
   * node reaches a function definition; a definition always ends the
   * compilation with the transform's crash.
   */
  lemma CompileSucceeds(input: string)
    ensures Compile(input).Success? <==>
      T.Lex(input).Success? && A.ParseProgram(T.Lex(input).value).Success?
      && forall c | c in A.ParseProgram(T.Lex(input).value).value.body :: !ReachesDefinition(c)
    ensures T.Lex(input).Success? && A.ParseProgram(T.Lex(input).value).Success?
      && (exists c | c in A.ParseProgram(T.Lex(input).value).value.body :: ReachesDefinition(c))
      ==> Compile(input) == Failure(TransformFailed(X.UndefinedNode))
  {
    if T.Lex(input).Success? && A.ParseProgram(T.Lex(input).value).Success? {
      var program := A.ParseProgram(T.Lex(input).value).value;
      AP.ProgramWellFormed(T.Lex(input).value);
      forall c | c in program.body
        ensures X.Lowerable(c) <==> !ReachesDefinition(c)
      {
        ParsedLowerable(c);
      }
      var r := X.TransformProgram(program);
      assert r.Failure? ==> r.error.UndefinedNode?;
    }
  }

  /** The tokens of `def addone [ number ] (add number 1)`. */
  const AddOne: seq<T.Token> :=
    [T.Definition, T.Literal("addone"), T.ArrayStart, T.Literal("number"), T.ArrayEnd,
     T.Parenthesis("("), T.Literal("add"), T.Literal("number"), T.NumberLiteral("1"), T.Parenthesis(")")]

  /** Its parameter list: `number`, up to and including the ArrayEnd. */
  lemma AddOneParamsParse()
    ensures A.ParseUntil(AddOne, 3, A.ArrayClose) == Success(A.Parsed([A.Leaf(T.Literal("number"))], 5))
  {
    var number := A.Leaf(T.Literal("number"));
    assert A.ParseUntil(AddOne, 4, A.ArrayClose) == Success(A.Parsed([], 5));
    assert A.ParseNode(AddOne, 3) == Success(A.Parsed(Some(number), 4));
    assert OptionToSeq(Some(number)) + [] == [number];
  }

  /** Its body, the call `(add number 1)`, which becomes an Addition. */
  lemma AddOneBodyParses()
    ensures A.ParseNode(AddOne, 5) == Success(A.Parsed(Some(
      A.Arithmetic(A.Addition, Some(A.Leaf(T.Literal("number"))), Some(A.Leaf(T.NumberLiteral("1"))))), 10))
  {
    var ts := AddOne;
    var number := A.Leaf(T.Literal("number"));
    var one := A.Leaf(T.NumberLiteral("1"));
    assert A.ParseUntil(ts, 9, A.ParenClose) == Success(A.Parsed([], 10));
    assert A.ParseNode(ts, 8) == Success(A.Parsed(Some(one), 9));
    assert OptionToSeq(Some(one)) + [] == [one];
    assert A.ParseUntil(ts, 8, A.ParenClose) == Success(A.Parsed([one], 10));
    assert A.ParseNode(ts, 7) == Success(A.Parsed(Some(number), 8));
    assert OptionToSeq(Some(number)) + [one] == [number, one];
    assert A.ParseUntil(ts, 7, A.ParenClose) == Success(A.Parsed([number, one], 10));
    assert A.ParseNode(ts, 5) == A.ParseCall(ts, 5);
  }

  /** The definition node: its `value` is absent, the Addition is its body. */
  lemma AddOneDefinitionNode()
    ensures var number := A.Leaf(T.Literal("number"));
      var addition := A.Arithmetic(A.Addition, Some(number), Some(A.Leaf(T.NumberLiteral("1"))));
      A.ParseNode(AddOne, 0) == Success(A.Parsed(Some(A.FunctionDefinition("addone", [addition], [number], None)), 10))
  {
    AddOneParamsParse();
    AddOneBodyParses();
    var ts := AddOne;
    var number := A.Leaf(T.Literal("number"));
    var addition := A.Arithmetic(A.Addition, Some(number), Some(A.Leaf(T.NumberLiteral("1"))));
    assert OptionToSeq(Some(addition)) == [addition];
    assert A.ParseBody(ts, 5) == Success(A.Parsed([addition], 10));
    DefinitionDispatch(ts, 0);
  }

  /** A `def` token hands the cursor to the definition parser. */
  lemma DefinitionDispatch(ts: seq<T.Token>, pos: nat)
    requires pos < |ts| && ts[pos].Definition?
    ensures A.ParseNode(ts, pos) == A.ParseDefinition(ts, pos)
  {
  }

  /** The whole program is that one definition. */
  lemma DefinitionParses()
    ensures var number := A.Leaf(T.Literal("number"));
      var addition := A.Arithmetic(A.Addition, Some(number), Some(A.Leaf(T.NumberLiteral("1"))));
      A.ParseProgram(AddOne) == Success(A.Program([A.FunctionDefinition("addone", [addition], [number], None)]))
  {
    AddOneDefinitionNode();
    var number := A.Leaf(T.Literal("number"));
    var addition := A.Arithmetic(A.Addition, Some(number), Some(A.Leaf(T.NumberLiteral("1"))));
    var definition := A.FunctionDefinition("addone", [addition], [number], None);
    assert A.ParseTop(AddOne, 10) == Success([]);
    assert OptionToSeq(Some(definition)) + [] == [definition];
  }

  /** That definition parses, and then the transform crashes on it. */
  lemma DefinitionDoesNotCompile()
    ensures A.ParseProgram(AddOne).Success? && ReachesDefinition(A.ParseProgram(AddOne).value.body[0])
    ensures X.TransformProgram(A.ParseProgram(AddOne).value) == Failure(X.UndefinedNode)
  {
    DefinitionParses();
  }

  /** The tokens of `$ a 5`. */
  lemma AssignmentLexes()
    ensures T.Lex("$ a 5") == Success([T.AssignmentOperator, T.Literal("a"), T.NumberLiteral("5")])
  {
    var input := "$ a 5";
    var five := T.NumberLiteral("5");
    TP.NumberStep(input, 4);
    assert T.RunEnd(input, 4, T.Digit, T.DigitDot) == 5;
    assert input[4..5] == "5";
    assert T.Step(input, 4) == T.Emit(five, 5);
    assert T.LexFrom(input, 5) == Success([]);
    assert [five] + [] == [five];
    assert T.LexFrom(input, 4) == Success([five]);
    assert T.Step(input, 3) == Success(T.Scan(None, 4));
    assert [] + [five] == [five];
    assert T.LexFrom(input, 3) == Success([five]);
    TP.IdentifierStep(input, 2);
    assert T.RunEnd(input, 2, T.Letter, T.LetterDigitDot) == 3;
    assert input[2..3] == "a";
    assert T.Step(input, 2) == T.Emit(T.Literal("a"), 3);
    assert [T.Literal("a")] + [five] == [T.Literal("a"), five];
    assert T.LexFrom(input, 2) == Success([T.Literal("a"), five]);
    assert T.Step(input, 1) == Success(T.Scan(None, 2));
    assert [] + [T.Literal("a"), five] == [T.Literal("a"), five];
    assert T.LexFrom(input, 1) == Success([T.Literal("a"), five]);
    TP.PunctuationStep(input, 0);
    assert T.Step(input, 0) == T.Emit(T.AssignmentOperator, 1);
    assert [T.AssignmentOperator] + [T.Literal("a"), five] == [T.AssignmentOperator, T.Literal("a"), five];
  }

  /** The tree of `$ a 5`: one assignment of the number leaf. */
  lemma AssignmentParses()
    ensures A.ParseProgram([T.AssignmentOperator, T.Literal("a"), T.NumberLiteral("5")])
         == Success(A.Program([A.Assignment("a", A.Leaf(T.NumberLiteral("5")))]))
  {
    var five := T.NumberLiteral("5");
    var ts := [T.AssignmentOperator, T.Literal("a"), five];
    var assignment := A.Assignment("a", A.Leaf(five));
    assert A.ParseNode(ts, 2) == Success(A.Parsed(Some(A.Leaf(five)), 3));
    assert A.ParseNode(ts, 0) == Success(A.Parsed(Some(assignment), 3));
    assert OptionToSeq(Some(assignment)) + [] == [assignment];
  }

  /** `$ a 5` compiles to `var a = 5`, a declaration that is not wrapped in an expression statement. */
  lemma AssignmentCompiles()
    ensures Compile("$ a 5") == Success(X.Program([
      X.VariableDeclaration([X.VariableDeclarator(X.Identifier("a"), X.Literal(X.NumberValue(5), "5"))], "var")]))
  {
    AssignmentLexes();
    AssignmentParses();
    var five := T.NumberLiteral("5");
    assert "5"[0] == '5';
    assert X.DigitsValue("5") == 5;
    var init := X.Literal(X.NumberValue(5), "5");
    assert X.Visit(A.Leaf(five), false) == Success(init);
    var declaration := X.VariableDeclaration([X.VariableDeclarator(X.Identifier("a"), init)], "var");
    assert X.Visit(A.Assignment("a", A.Leaf(five)), true) == Success(declaration);
    var body := [A.Assignment("a", A.Leaf(five))];
    assert body[1..] == [];
    assert X.VisitAll(body[1..], true) == Success([]);
    assert [declaration] + [] == [declaration];
    assert X.VisitAll(body, true) == Success([declaration]);
  }
}
