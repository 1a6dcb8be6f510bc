/**
 * What the transform of lib/transform.js promises: children are visited in
 * order and with the right parent, each handler builds the node shape it
 * names, and the lowering can be undone on the nodes it keeps all the
 * information of.
 */
module TransformProperties {
  import opened Wrappers
  import T = Tokenizer
  import A = Ast
  import opened Transform

  /** `map(visit)` visits child i to result i, with the same parent for all. */
  lemma {:induction false} VisitAllPointwise(ns: seq<A.Node>, underProgram: bool)
    requires VisitAll(ns, underProgram).Success?
    ensures forall i | 0 <= i < |ns| :: Visit(ns[i], underProgram) == Success(VisitAll(ns, underProgram).value[i])
  {
    if |ns| > 0 {
      VisitAllPointwise(ns[1..], underProgram);
      var r := VisitAll(ns, underProgram).value;
      assert r == [Visit(ns[0], underProgram).value] + VisitAll(ns[1..], underProgram).value;
      forall i | 0 < i < |ns|
        ensures Visit(ns[i], underProgram) == Success(r[i])
      {
        assert ns[i] == ns[1..][i - 1];
      }
    }
  }

  /** The Program keeps the length and order of its body, and each child is visited as a child of the Program. */
  lemma ProgramChildren(p: A.Program)
    requires forall c | c in p.body :: Lowerable(c)
    ensures var r := TransformProgram(p);
      r.Success? && r.value.Program? && |r.value.body| == |p.body|
      && forall i | 0 <= i < |p.body| :: Visit(p.body[i], true) == Success(r.value.body[i])
  {
    VisitAllPointwise(p.body, true);
  }

  /** Top-level calls and arrays become expression statements; nothing else is ever wrapped. */
  lemma WrappedOnlyAtTopLevel(p: A.Program, i: nat)
    requires forall c | c in p.body :: Lowerable(c)
    requires i < |p.body|
    ensures var e := TransformProgram(p).value.body[i];
      e.ExpressionStatement? <==> p.body[i].FunctionCall? || p.body[i].Array?
  {
    ProgramChildren(p);
  }

  /**
   * FunctionCall: a CallExpression whose callee is the call's name and whose
   * arguments are the arguments visited in order.
   */
  lemma CallLowering(name: string, args: seq<A.Node>, underProgram: bool)
    requires forall c | c in args :: Lowerable(c)
    ensures var r := Visit(A.FunctionCall(name, args), underProgram);
      r.Success? && (underProgram <==> r.value.ExpressionStatement?)
      && var call := if underProgram then r.value.expression else r.value;
      call.CallExpression? && call.callee == Identifier(name) && |call.arguments| == |args|
      && forall i | 0 <= i < |args| :: Visit(args[i], false) == Success(call.arguments[i])
  {
    VisitAllPointwise(args, false);
  }

  /** Array: an ArrayExpression of the elements visited in order. */
  lemma ArrayLowering(elements: seq<A.Node>, underProgram: bool)
    requires forall c | c in elements :: Lowerable(c)
    ensures var r := Visit(A.Array(elements), underProgram);
      r.Success? && (underProgram <==> r.value.ExpressionStatement?)
      && var lowered := if underProgram then r.value.expression else r.value;
      lowered.ArrayExpression? && |lowered.elements| == |elements|
      && forall i | 0 <= i < |elements| :: Visit(elements[i], false) == Success(lowered.elements[i])
  {
    VisitAllPointwise(elements, false);
  }

  /**
   * Assignment: a `var` declaration with exactly one declarator, named after
   * the variable and initialised with the visited value, at any depth unwrapped.
   */
  lemma AssignmentLowering(name: string, value: A.Node, underProgram: bool)
    ensures var r := Visit(A.Assignment(name, value), underProgram);
      (r.Success? <==> Lowerable(value))
      && (r.Success? ==>
            r.value.VariableDeclaration? && r.value.kind == "var" && |r.value.declarations| == 1
            && r.value.declarations[0] == VariableDeclarator(Identifier(name), Visit(value, false).value))
  {
  }

  /**
   * FunctionDefinition: a FunctionDeclaration named after the definition, whose
   * params are the visited arguments, whose `defaults` are empty and whose block
   * is a single return of the visited `value`.
   */
  lemma DefinitionLowering(name: string, body: seq<A.Node>, args: seq<A.Node>, value: A.Node, underProgram: bool)
    requires forall c | c in args :: Lowerable(c)
    requires Lowerable(value)
    ensures var r := Visit(A.FunctionDefinition(name, body, args, Some(value)), underProgram);
      r.Success? && r.value.FunctionDeclaration?
      && r.value.id == Identifier(name) && r.value.defaults == []
      && |r.value.params| == |args|
      && (forall i | 0 <= i < |args| :: Visit(args[i], false) == Success(r.value.params[i]))
      && r.value.block == BlockStatement([ReturnStatement(Visit(value, false).value)])
  {
    VisitAllPointwise(args, false);
  }

  /**
   * The handler reads the definition's `value`, which the parser never sets:
   * a definition without one always makes the transform fail, and the parsed
   * body is never looked at.
   */
  lemma DefinitionWithoutValueFails(name: string, body: seq<A.Node>, args: seq<A.Node>, underProgram: bool)
    ensures Visit(A.FunctionDefinition(name, body, args, None), underProgram) == Failure(UndefinedNode)
  {
    var r := Visit(A.FunctionDefinition(name, body, args, None), underProgram);
    assert r.Failure? && r.error.UndefinedNode?;
  }

  lemma DefinitionBodyIgnored(name: string, body1: seq<A.Node>, body2: seq<A.Node>, args: seq<A.Node>,
                              value: Option<A.Node>, underProgram: bool)
    ensures Visit(A.FunctionDefinition(name, body1, args, value), underProgram)
         == Visit(A.FunctionDefinition(name, body2, args, value), underProgram)
  {
  }

  /**
   * Leaves: a Literal token becomes an Identifier of its text, dots included;
   * strings and numbers become Literals; every other leaf is passed through.
   */
  lemma LeafLowering(t: T.Token, underProgram: bool)
    ensures var r := Visit(A.Leaf(t), underProgram);
      r.Success?
      && (t.Literal? ==> r.value == Identifier(t.value))
      && (t.StringLiteral? ==> r.value.Literal? && r.value.value == StringValue(t.value)
                               && r.value.raw == ['\''] + t.value + ['\''])
      && ((t.NumberLiteral? || t.FloatLiteral?) ==> r.value.Literal? && r.value.raw == t.value)
      && (!t.Literal? && !IsLiteralToken(t) ==> r.value == Untransformed(A.Leaf(t)))
  {
  }

  /** The digit run printed for n reads back as n. */
  lemma {:induction false} DecimalTextValue(n: nat)
    ensures DigitsValue(DecimalText(n)) == n
  {
    if n >= 10 {
      DecimalTextValue(n / 10);
      var s := DecimalText(n);
      assert s[..|s| - 1] == DecimalText(n / 10);
    }
  }

  /** A NumberLiteral whose text is the decimal form of n lowers to the number n, with the text as `raw`. */
  lemma NumberLeafValue(n: nat, underProgram: bool)
    ensures Visit(A.Leaf(T.NumberLiteral(DecimalText(n))), underProgram)
         == Success(Literal(NumberValue(n), DecimalText(n)))
  {
    DecimalTextValue(n);
  }

  /**
   * The nodes whose lowering loses nothing: every FunctionDefinition carries a
   * `value` and an empty body, and number tokens have a `.` exactly when they
   * are FloatLiterals, as the tokenizer produces them.
   */
  predicate Recoverable(n: A.Node) {
    match n
    case Leaf(t) =>
      (t.NumberLiteral? ==> '.' !in t.value) && (t.FloatLiteral? ==> '.' in t.value)
    case FunctionCall(_, args) => forall c | c in args :: Recoverable(c)
    case Array(elements) => forall c | c in elements :: Recoverable(c)
    case Assignment(_, value) => Recoverable(value)
    case FunctionDefinition(_, body, args, legacyValue) =>
      body == [] && (forall c | c in args :: Recoverable(c))
      && legacyValue.Some? && Recoverable(legacyValue.value)
    case _ => true
  }

  /** The parser's node an ESTree node was lowered from, when its shape is one the transform builds. */
  function Restore(e: Estree): Option<A.Node>
    decreases e
  {
    match e
    case Identifier(name) => Some(A.Leaf(T.Literal(name)))
    case Literal(value, raw) =>
      if value.StringValue? then Some(A.Leaf(T.StringLiteral(value.text)))
      else if '.' in raw then Some(A.Leaf(T.FloatLiteral(raw)))
      else Some(A.Leaf(T.NumberLiteral(raw)))
    case ExpressionStatement(x) =>
      if x.CallExpression? || x.ArrayExpression? then Restore(x) else None
    case CallExpression(callee, arguments) =>
      if !callee.Identifier? then None
      else
        var args :- RestoreAll(arguments);
        Some(A.FunctionCall(callee.name, args))
    case ArrayExpression(elements) =>
      var restored :- RestoreAll(elements);
      Some(A.Array(restored))
    case VariableDeclaration(declarations, kind) =>
      if kind != "var" || |declarations| != 1 || !declarations[0].VariableDeclarator?
         || !declarations[0].id.Identifier?
      then None
      else
        var value :- Restore(declarations[0].init);
        Some(A.Assignment(declarations[0].id.name, value))
    case FunctionDeclaration(id, params, defaults, block) =>
      if !id.Identifier? || defaults != [] || !block.BlockStatement? || |block.body| != 1
         || !block.body[0].ReturnStatement?
      then None
      else
        var args :- RestoreAll(params);
        var value :- Restore(block.body[0].argument);
        Some(A.FunctionDefinition(id.name, [], args, Some(value)))
    case Untransformed(n) => Some(n)
    case _ => None
  }

  function RestoreAll(es: seq<Estree>): (r: Option<seq<A.Node>>)
    decreases es
    ensures r.Some? ==> |r.value| == |es|
  {
    if |es| == 0 then Some([])
    else
      var first :- Restore(es[0]);
      var rest :- RestoreAll(es[1..]);
      Some([first] + rest)
  }

  /** Lowering a recoverable node and restoring the result gives the node back. */
  lemma {:induction false} RestoreVisit(n: A.Node, underProgram: bool)
    requires Recoverable(n)
    decreases n
    ensures Lowerable(n)
    ensures Restore(Visit(n, underProgram).value) == Some(n)
  {
    match n
    case Leaf(t) =>
    case FunctionCall(name, args) =>
      RestoreVisitAllUnder(args, false);
    case Array(elements) =>
      RestoreVisitAllUnder(elements, false);
    case Assignment(name, value) =>
      RestoreVisit(value, false);
    case FunctionDefinition(name, body, args, legacyValue) =>
      RestoreVisitAllUnder(args, false);
      RestoreVisit(legacyValue.value, false);
    case _ =>
  }

  /** The same for a whole program. */
  lemma RestoreProgram(p: A.Program)
    requires forall c | c in p.body :: Recoverable(c)
    ensures TransformProgram(p).Success?
    ensures RestoreAll(TransformProgram(p).value.body) == Some(p.body)
  {
    RestoreVisitAllUnder(p.body, true);
  }

  lemma {:induction false} RestoreVisitAllUnder(ns: seq<A.Node>, underProgram: bool)
    requires forall c | c in ns :: Recoverable(c)
    decreases ns
    ensures forall c | c in ns :: Lowerable(c)
    ensures RestoreAll(VisitAll(ns, underProgram).value) == Some(ns)
  {
    if |ns| > 0 {
      assert ns[0] in ns;
      RestoreVisit(ns[0], underProgram);
      assert forall c | c in ns[1..] :: c in ns;
      RestoreVisitAllUnder(ns[1..], underProgram);
      assert ns == [ns[0]] + ns[1..];
      var es := VisitAll(ns, underProgram).value;
      assert es[1..] == VisitAll(ns[1..], underProgram).value;
    }
  }
}
