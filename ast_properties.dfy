/**
 * What the productions of lib/ast.js promise, stated over the specification
 * functions of module Ast.
 */
module AstProperties {
  import opened Wrappers
  import T = Tokenizer
  import opened Ast

  /** The shape of every node the parser builds: leaves are literal or check tokens, an if
      statement has a check and a right operand only when its check takes one, an assignment never
      holds an assignment, an object key is a literal or a string, an arithmetic node has no right
      operand without a left one, and no function definition carries a `value`. */
  predicate WellFormed(n: Node) {
    match n
    case Leaf(t) => IsLeafToken(t)
    case ReturnStatement(v) => v.Some? ==> WellFormed(v.value)
    case ImportStatement(_, _) => true
    case ExportStatement(_) => true
    case IfStatement(check, left, right, pass, fail) =>
      && IsCheckToken(check)
      && (!HasRightSide(check) ==> right.None?)
      && (left.Some? ==> WellFormed(left.value))
      && (right.Some? ==> WellFormed(right.value))
      && (forall c | c in pass :: WellFormed(c))
      && (fail.Fail? ==> forall c | c in fail.nodes :: WellFormed(c))
    case Array(elements) => forall c | c in elements :: WellFormed(c)
    case Assignment(_, v) => !v.Assignment? && WellFormed(v)
    case ObjectCreation(_) => true
    case ObjectGet(_, key) => key.Literal? || key.StringLiteral?
    case ObjectSet(_, key, v) => (key.Literal? || key.StringLiteral?) && (v.Some? ==> WellFormed(v.value))
    case Arithmetic(_, left, right) =>
      && (left.None? ==> right.None?)
      && (left.Some? ==> WellFormed(left.value))
      && (right.Some? ==> WellFormed(right.value))
    case FunctionCall(_, args) => forall c | c in args :: WellFormed(c)
    case FunctionDefinition(_, body, args, legacyValue) =>
      && legacyValue.None?
      && (forall c | c in body :: WellFormed(c))
      && (forall c | c in args :: WellFormed(c))
    case Iterator(source, body) =>
      && (source.Some? ==> WellFormed(source.value))
      && (forall c | c in body :: WellFormed(c))
  }

  /** A successful production returned a well-formed node, or nothing. */
  predicate NodeOk(r: Result<Parsed<Option<Node>>, ParseError>) {
    r.Success? && r.value.value.Some? ==> WellFormed(r.value.value.value)
  }

  /** A successful collection holds only well-formed nodes. */
  predicate NodesOk(r: Result<Parsed<seq<Node>>, ParseError>) {
    r.Success? ==> forall c | c in r.value.value :: WellFormed(c)
  }

  lemma {:induction false} ParseNodeWellFormed(ts: seq<T.Token>, pos: nat)
    requires pos <= |ts|
    ensures NodeOk(ParseNode(ts, pos))
    decreases |ts| - pos, 1
  {
    if pos < |ts| {
      var t := ts[pos];
      if IsLeafToken(t) {
      } else if t.ReturnStatement? {
        ReturnWellFormed(ts, pos);
      } else if t.LineBreak? || t.SingleLineComment? || t.MultiLineComment? {
      } else if t.ImportStatement? || t.ExportStatement? || t.MakeStatement? || t.GetStatement? {
      } else if t.IfStatement? {
        IfWellFormed(ts, pos);
      } else if t.ArrayStart? {
        ParseUntilWellFormed(ts, pos + 1, ArrayClose);
      } else if t.AssignmentOperator? {
        if pos + 1 < |ts| && ts[pos + 1].Literal? {
          ParseNodeWellFormed(ts, pos + 2);
        }
      } else if t.SetStatement? {
        if ParseNameAndKey(ts, pos).Success? {
          ParseNodeWellFormed(ts, pos + 3);
        }
      } else if t.Parenthesis? && t.value == "(" {
        CallWellFormed(ts, pos);
      } else if t.Definition? {
        DefinitionWellFormed(ts, pos);
      } else if t.Iterator? {
        IteratorWellFormed(ts, pos);
      }
    }
  }

  lemma {:induction false} ReturnWellFormed(ts: seq<T.Token>, pos: nat)
    requires pos < |ts|
    ensures NodeOk(ParseReturn(ts, pos))
    decreases |ts| - pos, 0
  {
    if pos + 1 < |ts| {
      ParseNodeWellFormed(ts, pos + 1);
    }
  }

  lemma {:induction false} ParseUntilWellFormed(ts: seq<T.Token>, pos: nat, c: Closer)
    requires pos <= |ts|
    ensures NodesOk(ParseUntil(ts, pos, c))
    decreases |ts| - pos, 2
  {
    if pos < |ts| && !Closes(c, ts[pos]) {
      ParseNodeWellFormed(ts, pos);
      var first := ParseNode(ts, pos);
      if first.Success? {
        ParseUntilWellFormed(ts, first.value.next, c);
      }
    }
  }

  lemma {:induction false} ParseBodyWellFormed(ts: seq<T.Token>, pos: nat)
    requires pos <= |ts|
    ensures NodesOk(ParseBody(ts, pos))
    decreases |ts| - pos, 3
  {
    if pos < |ts| {
      if ts[pos] == T.DefinitionPoint("{") {
        ParseUntilWellFormed(ts, pos + 1, BraceClose);
      } else {
        ParseNodeWellFormed(ts, pos);
      }
    }
  }

  lemma {:induction false} IfWellFormed(ts: seq<T.Token>, pos: nat)
    requires pos < |ts|
    ensures NodeOk(ParseIf(ts, pos))
    decreases |ts| - pos, 0
  {
    ParseNodeWellFormed(ts, pos + 1);
    var left := ParseNode(ts, pos + 1);
    if left.Success? {
      var check := ParseNode(ts, left.value.next);
      if check.Success? && check.value.value.Some? && check.value.value.value.Leaf? && IsCheckToken(check.value.value.value.token) {
        IfBranchesWellFormed(ts, check.value.next, check.value.value.value.token, left.value.value);
      }
    }
  }

  lemma {:induction false} IfBranchesWellFormed(ts: seq<T.Token>, pos: nat, kind: T.Token, left: Option<Node>)
    requires pos <= |ts|
    requires IsCheckToken(kind) && (left.Some? ==> WellFormed(left.value))
    ensures NodeOk(ParseIfBranches(ts, pos, kind, left))
    decreases |ts| - pos, 6
  {
    if HasRightSide(kind) {
      ParseNodeWellFormed(ts, pos);
      var right := ParseNode(ts, pos);
      if right.Success? {
        IfBodiesWellFormed(ts, right.value.next, kind, left, right.value.value);
      }
    } else {
      IfBodiesWellFormed(ts, pos, kind, left, None);
    }
  }

  lemma {:induction false} IfBodiesWellFormed(ts: seq<T.Token>, pos: nat, kind: T.Token, left: Option<Node>, right: Option<Node>)
    requires pos <= |ts|
    requires IsCheckToken(kind) && (!HasRightSide(kind) ==> right.None?)
    requires (left.Some? ==> WellFormed(left.value)) && (right.Some? ==> WellFormed(right.value))
    ensures NodeOk(ParseIfBodies(ts, pos, kind, left, right))
    decreases |ts| - pos, 5
  {
    ParseBodyWellFormed(ts, pos);
    var pass := ParseBody(ts, pos);
    if pass.Success? {
      IfElseWellFormed(ts, pass.value.next, IfStatement(kind, left, right, pass.value.value, NoFail));
    }
  }

  lemma {:induction false} IfElseWellFormed(ts: seq<T.Token>, pos: nat, node: Node)
    requires pos <= |ts| && node.IfStatement? && node.fail.NoFail? && WellFormed(node)
    ensures NodeOk(ParseIfElse(ts, pos, node))
    decreases |ts| - pos, 4
  {
    if pos < |ts| && ts[pos].ElseExpression? {
      ParseBodyWellFormed(ts, pos + 1);
    }
  }

  lemma {:induction false} CallWellFormed(ts: seq<T.Token>, pos: nat)
    requires pos < |ts|
    ensures NodeOk(ParseCall(ts, pos))
    decreases |ts| - pos, 0
  {
    if pos + 1 < |ts| && ts[pos + 1].Literal? {
      ParseUntilWellFormed(ts, pos + 2, ParenClose);
    }
  }

  lemma {:induction false} DefinitionWellFormed(ts: seq<T.Token>, pos: nat)
    requires pos < |ts|
    ensures NodeOk(ParseDefinition(ts, pos))
    decreases |ts| - pos, 0
  {
    if pos + 3 <= |ts| && ts[pos + 1].Literal? {
      ParseUntilWellFormed(ts, pos + 3, ArrayClose);
      var args := ParseUntil(ts, pos + 3, ArrayClose);
      if args.Success? {
        ParseBodyWellFormed(ts, args.value.next);
      }
    }
  }

  lemma {:induction false} IteratorWellFormed(ts: seq<T.Token>, pos: nat)
    requires pos < |ts|
    ensures NodeOk(ParseIterator(ts, pos))
    decreases |ts| - pos, 0
  {
    ParseNodeWellFormed(ts, pos + 1);
    var source := ParseNode(ts, pos + 1);
    if source.Success? {
      ParseBodyWellFormed(ts, source.value.next);
    }
  }

  lemma {:induction false} ParseTopWellFormed(ts: seq<T.Token>, pos: nat)
    requires pos <= |ts|
    ensures ParseTop(ts, pos).Success? ==> forall c | c in ParseTop(ts, pos).value :: WellFormed(c)
    decreases |ts| - pos
  {
    if pos < |ts| {
      ParseNodeWellFormed(ts, pos);
      var first := ParseNode(ts, pos);
      if first.Success? {
        ParseTopWellFormed(ts, first.value.next);
      }
    }
  }

  /** Every program `toAST` returns is made of well-formed nodes. */
  lemma ProgramWellFormed(ts: seq<T.Token>)
    ensures ParseProgram(ts).Success? ==> forall c | c in ParseProgram(ts).value.body :: WellFormed(c)
  {
    ParseTopWellFormed(ts, 0);
  }

  /** A collecting loop stops only at its closing token, and consumes it. */
  lemma {:induction false} ParseUntilConsumesCloser(ts: seq<T.Token>, pos: nat, c: Closer)
    requires pos <= |ts|
    ensures ParseUntil(ts, pos, c).Success? ==> Closes(c, ts[ParseUntil(ts, pos, c).value.next - 1])
    decreases |ts| - pos
  {
    if pos < |ts| && !Closes(c, ts[pos]) {
      var first := ParseNode(ts, pos);
      if first.Success? {
        ParseUntilConsumesCloser(ts, first.value.next, c);
      }
    }
  }

  /** A body starting with `{` runs up to and including a closing brace; any other body is a
      single `process()` call, so it holds at most one node. */
  lemma BodyShape(ts: seq<T.Token>, pos: nat)
    requires pos < |ts| && ParseBody(ts, pos).Success?
    ensures var Parsed(body, next) := ParseBody(ts, pos).value;
      if ts[pos] == T.DefinitionPoint("{") then
        ts[next - 1].DefinitionPoint? && ts[next - 1].value != "{"
      else
        && ParseNode(ts, pos).Success?
        && body == OptionToSeq(ParseNode(ts, pos).value.value)
        && next == ParseNode(ts, pos).value.next
        && |body| <= 1
  {
    if ts[pos] == T.DefinitionPoint("{") {
      ParseUntilConsumesCloser(ts, pos + 1, BraceClose);
    }
  }

  /** The name after `$` must be a literal, and the value may not itself be an assignment;
      otherwise the result is the assignment of the parsed value to that name. */
  lemma AssignmentRules(ts: seq<T.Token>, pos: nat)
    requires pos + 1 < |ts| && ts[pos].AssignmentOperator?
    ensures !ts[pos + 1].Literal? ==> ParseNode(ts, pos) == Failure(VariableNameNotLiteral)
    ensures ts[pos + 1].Literal? && ParseNode(ts, pos + 2).Success? ==>
      var Parsed(v, next) := ParseNode(ts, pos + 2).value;
      ParseNode(ts, pos) ==
        if v.None? then Failure(MissingNode)
        else if v.value.Assignment? then Failure(AssignmentValueIsAssignment)
        else Success(Parsed(Some(Assignment(ts[pos + 1].value, v.value)), next))
  {
  }

  /** A call needs a literal name.  The names add, sub, mul, div and mod build an arithmetic node
      from the first two arguments and refuse more than two; any other name is a call with all its
      arguments in order.  Either way the closing parenthesis is consumed. */
  lemma CallRules(ts: seq<T.Token>, pos: nat)
    requires pos + 1 < |ts| && ts[pos] == T.Parenthesis("(")
    ensures !ts[pos + 1].Literal? ==> ParseNode(ts, pos) == Failure(CallNameNotLiteral)
    ensures ts[pos + 1].Literal? && ParseUntil(ts, pos + 2, ParenClose).Success? ==>
      var name := ts[pos + 1].value;
      var Parsed(args, next) := ParseUntil(ts, pos + 2, ParenClose).value;
      && ts[next - 1] == T.Parenthesis(")")
      && ParseNode(ts, pos) ==
        match ArithmeticName(name)
        case Some(op) =>
          if |args| > 2 then Failure(TooManyArithmeticArguments)
          else Success(Parsed(Some(Arithmetic(op, ArgAt(args, 0), ArgAt(args, 1))), next))
        case None => Success(Parsed(Some(FunctionCall(name, args)), next))
  {
    ParseUntilConsumesCloser(ts, pos + 2, ParenClose);
  }

  /** An if statement's check must be one of the four check tokens. */
  lemma IfNeedsCheck(ts: seq<T.Token>, pos: nat)
    requires pos < |ts| && ts[pos].IfStatement?
    requires ParseNode(ts, pos + 1).Success?
    requires var check := ParseNode(ts, ParseNode(ts, pos + 1).value.next);
      check.Success? && check.value.value.Some? && !(check.value.value.value.Leaf? && IsCheckToken(check.value.value.value.token))
    ensures ParseNode(ts, pos) == Failure(IfWithoutCheck)
  {
  }

  /** The else body exists exactly when `else` immediately follows the pass body. */
  lemma IfElseRule(ts: seq<T.Token>, pos: nat, node: Node)
    requires pos <= |ts| && node.IfStatement? && node.fail.NoFail?
    requires ParseIfElse(ts, pos, node).Success?
    ensures var r := ParseIfElse(ts, pos, node).value.value;
      && r.Some? && r.value.IfStatement?
      && (r.value.fail.Fail? <==> pos < |ts| && ts[pos].ElseExpression?)
      && r.value == node.(fail := r.value.fail)
  {
  }

  /** `process()` returns a leaf only for a leaf token, and then that very token. */
  lemma LeafComesFromToken(ts: seq<T.Token>, pos: nat)
    requires pos <= |ts| && ParseNode(ts, pos).Success?
    requires var v := ParseNode(ts, pos).value.value; v.Some? && v.value.Leaf?
    ensures pos < |ts| && IsLeafToken(ts[pos]) && ParseNode(ts, pos).value.value.value.token == ts[pos]
    ensures ParseNode(ts, pos).value.next == pos + 1
  {
  }

  /** A literal or check token is returned as the node itself, and only that token is consumed. */
  lemma LeafTokenParses(ts: seq<T.Token>, pos: nat)
    requires pos < |ts| && IsLeafToken(ts[pos])
    ensures ParseNode(ts, pos) == Success(Parsed(Some(Leaf(ts[pos])), pos + 1))
  {
  }

  /** An import needs a string, and its optional `as` name a literal. */
  lemma ImportRules(ts: seq<T.Token>, pos: nat)
    requires pos + 1 < |ts| && ts[pos].ImportStatement?
    ensures IsLeafToken(ts[pos + 1]) && !ts[pos + 1].StringLiteral? ==>
      ParseNode(ts, pos) == Failure(UseMustUseString)
    ensures ParseNode(ts, pos).Success? ==>
      && ts[pos + 1].StringLiteral?
      && var n := ParseNode(ts, pos).value.value;
      && n.Some? && n.value.ImportStatement? && n.value.path == ts[pos + 1].value
      && (n.value.binding.Some? <==> pos + 2 < |ts| && ts[pos + 2].ImportAsStatement?)
      && (n.value.binding.Some? ==> pos + 3 < |ts| && ts[pos + 3] == T.Literal(n.value.binding.value))
    ensures (pos + 3 < |ts| && ts[pos + 1].StringLiteral? && ts[pos + 2].ImportAsStatement?
             && IsLeafToken(ts[pos + 3]) && !ts[pos + 3].Literal?) ==>
      ParseNode(ts, pos) == Failure(ImportNameNotLiteral)
  {
    assert ParseNode(ts, pos) == ParseImport(ts, pos);
    if IsLeafToken(ts[pos + 1]) {
      assert ParseNode(ts, pos + 1) == Success(Parsed(Some(Leaf(ts[pos + 1])), pos + 2));
    }
    if pos + 3 < |ts| && IsLeafToken(ts[pos + 3]) {
      LeafTokenParses(ts, pos + 3);
    }
    if ParseNode(ts, pos).Success? {
      LeafComesFromToken(ts, pos + 1);
      var p := ParseNode(ts, pos + 1).value.next;
      assert p == pos + 2;
      if p < |ts| && ts[p].ImportAsStatement? {
        LeafComesFromToken(ts, p + 1);
      }
    }
  }

  /** An export needs a literal name. */
  lemma ExportRules(ts: seq<T.Token>, pos: nat)
    requires pos + 1 < |ts| && ts[pos].ExportStatement?
    ensures IsLeafToken(ts[pos + 1]) ==>
      ParseNode(ts, pos) ==
        if ts[pos + 1].Literal? then Success(Parsed(Some(ExportStatement(ts[pos + 1].value)), pos + 2))
        else Failure(ExportNotLiteral)
    ensures ParseNode(ts, pos).Success? ==> ts[pos + 1].Literal?
  {
    assert ParseNode(ts, pos) == ParseExport(ts, pos);
    if IsLeafToken(ts[pos + 1]) {
      assert ParseNode(ts, pos + 1) == Success(Parsed(Some(Leaf(ts[pos + 1])), pos + 2));
    }
    if ParseNode(ts, pos).Success? {
      LeafComesFromToken(ts, pos + 1);
    }
  }

  /** Get and set need a literal object name and a literal or string key; a get is then those two,
      and a set those two and the one node after them as its value. */
  lemma ObjectRules(ts: seq<T.Token>, pos: nat)
    requires pos + 2 < |ts| && (ts[pos].GetStatement? || ts[pos].SetStatement?)
    ensures !ts[pos + 1].Literal? ==> ParseNode(ts, pos) == Failure(ObjectNameNotLiteral)
    ensures ts[pos + 1].Literal? && !(ts[pos + 2].Literal? || ts[pos + 2].StringLiteral?) ==>
      ParseNode(ts, pos) == Failure(ObjectKeyNotLiteralOrString)
    ensures ts[pos].GetStatement? && ts[pos + 1].Literal? && (ts[pos + 2].Literal? || ts[pos + 2].StringLiteral?) ==>
      ParseNode(ts, pos) == Success(Parsed(Some(ObjectGet(ts[pos + 1].value, ts[pos + 2])), pos + 3))
    ensures ts[pos].SetStatement? && ts[pos + 1].Literal? && (ts[pos + 2].Literal? || ts[pos + 2].StringLiteral?) ==>
      ParseNode(ts, pos) ==
        match ParseNode(ts, pos + 3)
        case Success(v) => Success(Parsed(Some(ObjectSet(ts[pos + 1].value, ts[pos + 2], v.value)), v.next))
        case Failure(e) => Failure(e)
  {
  }

  /** An array is every node up to its ArrayEnd, which it consumes. */
  lemma ArrayRules(ts: seq<T.Token>, pos: nat)
    requires pos < |ts| && ts[pos].ArrayStart?
    ensures ParseNode(ts, pos) ==
      match ParseUntil(ts, pos + 1, ArrayClose)
      case Success(elements) => Success(Parsed(Some(Array(elements.value)), elements.next))
      case Failure(e) => Failure(e)
    ensures ParseNode(ts, pos).Success? ==> ts[ParseNode(ts, pos).value.next - 1].ArrayEnd?
  {
    assert ParseNode(ts, pos) == ParseArray(ts, pos);
    ParseUntilConsumesCloser(ts, pos + 1, ArrayClose);
  }

  /** `make` needs a literal object name, and creates the object of that name. */
  lemma MakeRules(ts: seq<T.Token>, pos: nat)
    requires pos + 1 < |ts| && ts[pos].MakeStatement?
    ensures ParseNode(ts, pos) ==
      if ts[pos + 1].Literal? then Success(Parsed(Some(ObjectCreation(ts[pos + 1].value)), pos + 2))
      else Failure(ObjectCreationNameNotLiteral)
  {
  }

  /** A return takes the next node as its value, unless a LineBreak or the end of the list follows. */
  lemma ReturnRules(ts: seq<T.Token>, pos: nat)
    requires pos < |ts| && ts[pos].ReturnStatement?
    ensures pos + 1 == |ts| || ts[pos + 1].LineBreak? ==>
      ParseNode(ts, pos) == Success(Parsed(Some(ReturnStatement(None)), pos + 1))
    ensures pos + 1 < |ts| && !ts[pos + 1].LineBreak? ==>
      ParseNode(ts, pos) ==
        match ParseNode(ts, pos + 1)
        case Success(v) => Success(Parsed(Some(ReturnStatement(v.value)), v.next))
        case Failure(e) => Failure(e)
  {
  }

  /** A definition needs a literal name; the token after the name is skipped unread, the parameters
      run up to and including an ArrayEnd, and the body follows. The node never has a `value`. */
  lemma DefinitionRules(ts: seq<T.Token>, pos: nat)
    requires pos + 1 < |ts| && ts[pos].Definition?
    ensures !ts[pos + 1].Literal? ==> ParseNode(ts, pos) == Failure(FunctionNameNotLiteral)
    ensures ts[pos + 1].Literal? && pos + 3 <= |ts| && ParseUntil(ts, pos + 3, ArrayClose).Success? ==>
      var Parsed(args, next) := ParseUntil(ts, pos + 3, ArrayClose).value;
      && ts[next - 1].ArrayEnd?
      && ParseNode(ts, pos) ==
        match ParseBody(ts, next)
        case Success(body) => Success(Parsed(Some(FunctionDefinition(ts[pos + 1].value, body.value, args, None)), body.next))
        case Failure(e) => Failure(e)
  {
    assert ParseNode(ts, pos) == ParseDefinition(ts, pos);
    if pos + 3 <= |ts| {
      ParseUntilConsumesCloser(ts, pos + 3, ArrayClose);
    }
  }

  /** An iterator is the node after its keyword as the source, then a body. */
  lemma IteratorRules(ts: seq<T.Token>, pos: nat)
    requires pos < |ts| && ts[pos].Iterator?
    ensures ParseNode(ts, pos + 1).Success? ==>
      var Parsed(source, next) := ParseNode(ts, pos + 1).value;
      ParseNode(ts, pos) ==
        match ParseBody(ts, next)
        case Success(body) => Success(Parsed(Some(Iterator(source, body.value)), body.next))
        case Failure(e) => Failure(e)
    ensures ParseNode(ts, pos + 1).Failure? ==> ParseNode(ts, pos) == Failure(ParseNode(ts, pos + 1).error)
  {
    assert ParseNode(ts, pos) == ParseIterator(ts, pos);
  }

  /** An if statement keeps its check and left side; its right side is the node parsed right after
      the check exactly when the check takes one (`is`, `kinda`, `contains`), and absent otherwise. */
  lemma RightSideParsed(ts: seq<T.Token>, pos: nat, kind: T.Token, left: Option<Node>)
    requires pos <= |ts| && ParseIfBranches(ts, pos, kind, left).Success?
    ensures var n := ParseIfBranches(ts, pos, kind, left).value.value.value;
      && n.check == kind && n.left == left
      && if HasRightSide(kind) then ParseNode(ts, pos).Success? && n.right == ParseNode(ts, pos).value.value
         else n.right.None?
  {
    var right := if HasRightSide(kind) then ParseNode(ts, pos).value.value else None;
    var next := if HasRightSide(kind) then ParseNode(ts, pos).value.next else pos;
    assert ParseIfBranches(ts, pos, kind, left) == ParseIfBodies(ts, next, kind, left, right);
    var pass := ParseBody(ts, next).value;
    IfElseRule(ts, pass.next, IfStatement(kind, left, right, pass.value, NoFail));
  }

  /** Line breaks and comments contribute nothing to the program. */
  lemma SeparatorsContributeNothing(ts: seq<T.Token>, pos: nat)
    requires pos < |ts| && (ts[pos].LineBreak? || ts[pos].SingleLineComment? || ts[pos].MultiLineComment?)
    ensures ParseTop(ts, pos) == ParseTop(ts, pos + 1)
  {
    var rest := ParseTop(ts, pos + 1);
    if rest.Success? {
      assert [] + rest.value == rest.value;
    }
  }

  /** Distinct thrown errors have distinct messages, so the text a caller matches on tells
      which rule was broken, and an unknown token's message names its kind. */
  lemma MessagesIdentifyErrors(e1: ParseError, e2: ParseError)
    requires !e1.UnexpectedEnd? && !e1.MissingNode? && !e2.UnexpectedEnd? && !e2.MissingNode?
    requires Message(e1) == Message(e2)
    ensures e1 == e2
  {
    if e1.UnknownToken? && e2.UnknownToken? {
      UnknownMessageNamesKind(e1.kind);
      UnknownMessageNamesKind(e2.kind);
    } else if e1.UnknownToken? {
      UnknownDiffersFromFixed(e1.kind, e2);
    } else if e2.UnknownToken? {
      UnknownDiffersFromFixed(e2.kind, e1);
    } else if e1 != e2 {
      FixedMessagesDiffer(e1, e2);
    }
  }

  lemma UnknownMessageNamesKind(kind: string)
    ensures var m := Message(UnknownToken(kind));
      |m| >= 15 && m[0] == 'U' && m[15..] == kind
  {
  }

  lemma UnknownDiffersFromFixed(kind: string, e: ParseError)
    requires !e.UnexpectedEnd? && !e.MissingNode? && !e.UnknownToken?
    ensures Message(UnknownToken(kind)) != Message(e)
  {
    UnknownMessageNamesKind(kind);
    FixedMessageKey(e);
  }

  lemma FixedMessagesDiffer(e1: ParseError, e2: ParseError)
    requires !e1.UnexpectedEnd? && !e1.MissingNode? && !e1.UnknownToken?
    requires !e2.UnexpectedEnd? && !e2.MissingNode? && !e2.UnknownToken?
    requires e1 != e2
    ensures Message(e1) != Message(e2)
  {
    FixedMessageKey(e1);
    FixedMessageKey(e2);
    DistinctKeys(e1, e2);
  }

  lemma DistinctKeys(e1: ParseError, e2: ParseError)
    requires !e1.UnexpectedEnd? && !e1.MissingNode? && !e1.UnknownToken?
    requires !e2.UnexpectedEnd? && !e2.MissingNode? && !e2.UnknownToken?
    requires e1 != e2
    ensures MessageKey(e1) != MessageKey(e2)
  {
  }

  /** The length and first character of each fixed message, which already tell them apart. */
  function MessageKey(e: ParseError): (int, char)
    requires !e.UnexpectedEnd? && !e.MissingNode? && !e.UnknownToken?
  {
    match e
    case UseMustUseString => (29, 'u')
    case ImportNameNotLiteral => (30, 'm')
    case ExportNotLiteral => (19, 'm')
    case IfWithoutCheck => (36, 'i')
    case VariableNameNotLiteral => (31, 'V')
    case AssignmentValueIsAssignment => (35, 'V')
    case ObjectCreationNameNotLiteral => (29, 'O')
    case ObjectNameNotLiteral => (27, 'O')
    case ObjectKeyNotLiteralOrString => (36, 'O')
    case CallNameNotLiteral => (34, 'F')
    case TooManyArithmeticArguments => (44, 'a')
    case FunctionNameNotLiteral => (29, 'F')
  }

  lemma FixedMessageKey(e: ParseError)
    requires !e.UnexpectedEnd? && !e.MissingNode? && !e.UnknownToken?
    ensures |Message(e)| > 0 && (|Message(e)|, Message(e)[0]) == MessageKey(e)
  {
  }

  /** `$ 3 1`: the name after `$` is a number. */
  lemma NumberNameRejected()
    ensures ParseProgram([T.AssignmentOperator, T.NumberLiteral("3"), T.NumberLiteral("1")])
         == Failure(VariableNameNotLiteral)
    ensures Message(VariableNameNotLiteral) == "Variable name must be a literal"
  {
    var ts := [T.AssignmentOperator, T.NumberLiteral("3"), T.NumberLiteral("1")];
    assert ParseNode(ts, 0) == Failure(VariableNameNotLiteral);
  }

  /** `$ a $ b 1`: the value is parsed, then refused for being an assignment itself. */
  lemma ChainedAssignmentRejected()
    ensures ParseProgram([T.AssignmentOperator, T.Literal("a"), T.AssignmentOperator, T.Literal("b"), T.NumberLiteral("1")])
         == Failure(AssignmentValueIsAssignment)
    ensures Message(AssignmentValueIsAssignment) == "Variable value cannot be assignment"
  {
    var ts := [T.AssignmentOperator, T.Literal("a"), T.AssignmentOperator, T.Literal("b"), T.NumberLiteral("1")];
    assert ParseNode(ts, 4) == Success(Parsed(Some(Leaf(T.NumberLiteral("1"))), 5));
    assert ParseNode(ts, 2) == Success(Parsed(Some(Assignment("b", Leaf(T.NumberLiteral("1")))), 5));
    assert ParseNode(ts, 0) == Failure(AssignmentValueIsAssignment);
  }

  /** `[ [ 1 ] 2 ]`: arrays nest, and each one consumes its own closing bracket. */
  lemma NestedArrays()
    ensures ParseProgram([T.ArrayStart, T.ArrayStart, T.NumberLiteral("1"), T.ArrayEnd, T.NumberLiteral("2"), T.ArrayEnd])
         == Success(Program([Array([Array([Leaf(T.NumberLiteral("1"))]), Leaf(T.NumberLiteral("2"))])]))
  {
    var ts := [T.ArrayStart, T.ArrayStart, T.NumberLiteral("1"), T.ArrayEnd, T.NumberLiteral("2"), T.ArrayEnd];
    var one := Leaf(T.NumberLiteral("1"));
    var two := Leaf(T.NumberLiteral("2"));
    assert ParseUntil(ts, 3, ArrayClose) == Success(Parsed([], 4));
    assert OptionToSeq(Some(one)) + [] == [one];
    assert ParseUntil(ts, 2, ArrayClose) == Success(Parsed([one], 4));
    assert ParseNode(ts, 1) == Success(Parsed(Some(Array([one])), 4));
    assert ParseUntil(ts, 5, ArrayClose) == Success(Parsed([], 6));
    assert OptionToSeq(Some(two)) + [] == [two];
    assert ParseUntil(ts, 4, ArrayClose) == Success(Parsed([two], 6));
    assert OptionToSeq(Some(Array([one]))) + [two] == [Array([one]), two];
    assert ParseUntil(ts, 1, ArrayClose) == Success(Parsed([Array([one]), two], 6));
    assert ParseNode(ts, 0) == Success(Parsed(Some(Array([Array([one]), two])), 6));
    assert ParseTop(ts, 6) == Success([]);
    assert OptionToSeq(Some(Array([Array([one]), two]))) + [] == [Array([Array([one]), two])];
  }

  /** `def f ] ] x`: the token after the name is skipped whatever it is, here a closing bracket. */
  lemma DefinitionSkipsUncheckedToken()
    ensures ParseProgram([T.Definition, T.Literal("f"), T.ArrayEnd, T.ArrayEnd, T.Literal("x")])
         == Success(Program([FunctionDefinition("f", [Leaf(T.Literal("x"))], [], None)]))
  {
    var ts := [T.Definition, T.Literal("f"), T.ArrayEnd, T.ArrayEnd, T.Literal("x")];
    var x := Leaf(T.Literal("x"));
    assert ParseUntil(ts, 3, ArrayClose) == Success(Parsed([], 4));
    assert ParseBody(ts, 4) == Success(Parsed([x], 5));
    var definition := FunctionDefinition("f", [x], [], None);
    assert ParseNode(ts, 0) == Success(Parsed(Some(definition), 5));
    assert ParseTop(ts, 5) == Success([]);
    assert OptionToSeq(Some(definition)) + [] == [definition];
  }
}

