/**
 * The transform stage of lib/transform.js: a visitor from the parser's tree to
 * ESTree-shaped nodes. Only Program, FunctionCall, FunctionDefinition, Array,
 * Assignment and the Literal / StringLiteral / NumberLiteral / FloatLiteral
 * leaves have a handler; every other node is handed back as it is.
 */
module Transform {
  import opened Wrappers
  import T = Tokenizer
  import A = Ast

  /** The `value` of an ESTree Literal: the string itself, or the number `parseFloat` reads. */
  datatype LiteralValue =
    | StringValue(text: string)
    | NumberValue(number: nat)
      /** A number whose text is not a plain digit run: its floating-point value is not modelled. */
    | UnmodelledNumber

  /** The ESTree node types the transform builds, plus the nodes it passes through. */
  datatype Estree =
    | Program(body: seq<Estree>)
    | ExpressionStatement(expression: Estree)
    | CallExpression(callee: Estree, arguments: seq<Estree>)
    | ArrayExpression(elements: seq<Estree>)
    | VariableDeclaration(declarations: seq<Estree>, kind: string)
    | VariableDeclarator(id: Estree, init: Estree)
      /** `defaults` is the always-empty field of the SpiderMonkey Parser API; `block` is ESTree's `body`. */
    | FunctionDeclaration(id: Estree, params: seq<Estree>, defaults: seq<Estree>, block: Estree)
    | BlockStatement(body: seq<Estree>)
    | ReturnStatement(argument: Estree)
    | Identifier(name: string)
    | Literal(value: LiteralValue, raw: string)
      /** A node of the parser's tree that has no handler, returned unchanged. */
    | Untransformed(node: A.Node)

  /**
   * The one way the visitor crashes: the FunctionDefinition handler visits the
   * node's `value` field, and visiting an undefined node reads `.type` of undefined.
   */
  datatype TransformError = UndefinedNode

  predicate AllDigits(s: string) {
    forall i :: 0 <= i < |s| ==> T.IsDigit(s[i])
  }

  /** The decimal value of a run of digits. */
  function DigitsValue(s: string): (n: nat)
    requires AllDigits(s)
    ensures |s| == 0 ==> n == 0
  {
    if |s| == 0 then 0 else DigitsValue(s[..|s| - 1]) * 10 + (s[|s| - 1] as int - '0' as int)
  }

  /** The decimal text of a natural number, with no leading zero. */
  function DecimalText(n: nat): (s: string)
    ensures |s| >= 1 && AllDigits(s)
    ensures |s| > 1 ==> s[0] != '0'
  {
    var last := ['0' + (n % 10) as char];
    if n < 10 then last else DecimalText(n / 10) + last
  }

  /** `parseFloat` of a number token's text, as far as it is modelled: digit runs only. */
  function NumberValueOf(raw: string): (v: LiteralValue)
    ensures v.NumberValue? <==> |raw| > 0 && AllDigits(raw)
  {
    if |raw| > 0 && AllDigits(raw) then NumberValue(DigitsValue(raw)) else UnmodelledNumber
  }

  /** The nodes `toIdentifier` is handed: the named nodes, and Literal leaves. */
  predicate Identifiable(n: A.Node) {
    n.FunctionCall? || n.FunctionDefinition? || n.Assignment? || (n.Leaf? && n.token.Literal?)
  }

  /**
   * `toIdentifier(node)`: named after the node's `name` field when it has one, and otherwise
   * after its `value` field, which only a Literal leaf (a token) has.
   */
  function ToIdentifier(n: A.Node): (e: Estree)
    requires Identifiable(n)
    ensures e.Identifier?
    ensures n.Leaf? ==> e.name == n.token.value
    ensures !n.Leaf? ==> e.name == n.name
  {
    match n
    case Leaf(t) => Identifier(t.value)
    case FunctionCall(name, _) => Identifier(name)
    case FunctionDefinition(name, _, _, _) => Identifier(name)
    case Assignment(name, _) => Identifier(name)
  }

  predicate IsLiteralToken(t: T.Token) {
    t.StringLiteral? || t.NumberLiteral? || t.FloatLiteral?
  }

  /** `toLiteral` and `toNumberFloatLiteral`: strings keep their value and are quoted in `raw`; numbers keep their text. */
  function ToLiteral(t: T.Token): (e: Estree)
    requires IsLiteralToken(t)
    ensures e.Literal?
    ensures t.StringLiteral? ==> e.value == StringValue(t.value)
    ensures t.StringLiteral? ==>
      |e.raw| == |t.value| + 2 && e.raw[0] == '\'' && e.raw[|e.raw| - 1] == '\'' && e.raw[1..|e.raw| - 1] == t.value
    ensures !t.StringLiteral? ==> e.raw == t.value && !e.value.StringValue?
  {
    if t.StringLiteral? then Literal(StringValue(t.value), "'" + t.value + "'")
    else Literal(NumberValueOf(t.value), t.value)
  }

  /** The nodes the visitor table has a handler for. */
  predicate Handled(n: A.Node) {
    n.FunctionCall? || n.FunctionDefinition? || n.Array? || n.Assignment?
    || (n.Leaf? && (n.token.Literal? || IsLiteralToken(n.token)))
  }

  /**
   * The nodes the visitor lowers without crashing: every FunctionDefinition it
   * reaches must carry a `value`, and the visitor only reaches the children of
   * handled nodes.
   */
  predicate Lowerable(n: A.Node) {
    match n
    case FunctionCall(_, args) => forall c | c in args :: Lowerable(c)
    case Array(elements) => forall c | c in elements :: Lowerable(c)
    case Assignment(_, value) => Lowerable(value)
    case FunctionDefinition(_, _, args, legacyValue) =>
      (forall c | c in args :: Lowerable(c)) && legacyValue.Some? && Lowerable(legacyValue.value)
    case _ => true
  }

  /**
   * `visit(node, parent)`. `underProgram` is whether the parent is the Program
   * node, the only thing about the parent a handler looks at.
   */
  function Visit(n: A.Node, underProgram: bool): (r: Result<Estree, TransformError>)
    decreases n
    ensures r.Success? <==> Lowerable(n)
    ensures r.Success? ==>
      (r.value.ExpressionStatement? <==> underProgram && (n.FunctionCall? || n.Array?))
    ensures !Handled(n) ==> r == Success(Untransformed(n))
    ensures r.Success? && r.value.Untransformed? ==> !Handled(n)
  {
    match n
    case Leaf(t) =>
      if t.Literal? then Success(ToIdentifier(n))
      else if IsLiteralToken(t) then Success(ToLiteral(t))
      else Success(Untransformed(n))
    case FunctionCall(name, args) =>
      var arguments :- VisitAll(args, false);
      var call := CallExpression(ToIdentifier(n), arguments);
      Success(if underProgram then ExpressionStatement(call) else call)
    case FunctionDefinition(name, _, args, legacyValue) =>
      var params :- VisitAll(args, false);
      if legacyValue.None? then Failure(UndefinedNode)
      else
        var returned :- Visit(legacyValue.value, false);
        Success(FunctionDeclaration(ToIdentifier(n), params, [], BlockStatement([ReturnStatement(returned)])))
    case Array(elements) =>
      var visited :- VisitAll(elements, false);
      var arrayExpression := ArrayExpression(visited);
      Success(if underProgram then ExpressionStatement(arrayExpression) else arrayExpression)
    case Assignment(name, value) =>
      var init :- Visit(value, false);
      Success(VariableDeclaration([VariableDeclarator(ToIdentifier(n), init)], "var"))
    case _ => Success(Untransformed(n))
  }

  /** `nodes.map(child => visit(child, parent))`: the first crash ends the whole transform. */
  function VisitAll(ns: seq<A.Node>, underProgram: bool): (r: Result<seq<Estree>, TransformError>)
    decreases ns
    ensures r.Success? <==> forall c | c in ns :: Lowerable(c)
    ensures r.Success? ==> |r.value| == |ns|
  {
    if |ns| == 0 then Success([])
    else
      assert ns[0] in ns && forall c | c in ns[1..] :: c in ns;
      var first :- Visit(ns[0], underProgram);
      var rest :- VisitAll(ns[1..], underProgram);
      Success([first] + rest)
  }

  /** `transformAST(ast)`: the Program handler visits every child with the Program as parent. */
  function TransformProgram(p: A.Program): (r: Result<Estree, TransformError>)
    ensures r.Success? <==> forall c | c in p.body :: Lowerable(c)
    ensures r.Success? ==> r.value.Program? && |r.value.body| == |p.body|
  {
    var body :- VisitAll(p.body, true);
    Success(Program(body))
  }
}
