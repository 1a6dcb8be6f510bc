/**
 * The parser of lib/ast.js: a recursive descent over the token list in which
 * every production shares one cursor, `currentIndex`.
 *
 * The functions `ParseNode`, `ParseBody`, `ParseUntil`, the productions and
 * `ParseProgram` specify what each call of the source computes: the node it
 * returns (or nothing, for line breaks and comments) and where it leaves the
 * cursor.  The class `Parser` holds the shared cursor and runs the same
 * productions imperatively, with the source's `while` loops; each of its
 * methods is proved to agree with the matching function.  JavaScript crashes
 * (reading `.type` of an absent token or of an absent result) are the errors
 * `UnexpectedEnd` and `MissingNode`.
 */
module Ast {
  import opened Wrappers
  import T = Tokenizer

  datatype ArithmeticOp = Addition | Subtraction | Multiplication | Division | Modulus

  /** The tree `toAST` builds.  A `Leaf` is a literal or check token returned as it is. */
  datatype Node =
    | Leaf(token: T.Token)
    | ReturnStatement(returned: Option<Node>)
    | ImportStatement(path: string, binding: Option<string>)
    | ExportStatement(exported: string)
    | IfStatement(check: T.Token, left: Option<Node>, right: Option<Node>, pass: seq<Node>, fail: Fail)
    | Array(elements: seq<Node>)
    | Assignment(name: string, value: Node)
    | ObjectCreation(name: string)
    | ObjectGet(name: string, key: T.Token)
    | ObjectSet(name: string, key: T.Token, stored: Option<Node>)
    | Arithmetic(op: ArithmeticOp, left: Option<Node>, right: Option<Node>)
    | FunctionCall(name: string, args: seq<Node>)
      /** `legacyValue` is the `value` field the transform's handler reads; the parser never sets it. */
    | FunctionDefinition(name: string, body: seq<Node>, args: seq<Node>, legacyValue: Option<Node>)
    | Iterator(source: Option<Node>, body: seq<Node>)

  /** The `fail` body of an if statement: absent, or the nodes after `else`. */
  datatype Fail = NoFail | Fail(nodes: seq<Node>)

  datatype Program = Program(body: seq<Node>)

  /** The errors the parser throws, and the two ways it crashes. */
  datatype ParseError =
    | UseMustUseString
    | ImportNameNotLiteral
    | ExportNotLiteral
    | IfWithoutCheck
    | VariableNameNotLiteral
    | AssignmentValueIsAssignment
    | ObjectCreationNameNotLiteral
    | ObjectNameNotLiteral
    | ObjectKeyNotLiteralOrString
    | CallNameNotLiteral
    | TooManyArithmeticArguments
    | FunctionNameNotLiteral
    | UnknownToken(kind: string)
      /** A production read the type of a token past the end of the list. */
    | UnexpectedEnd
      /** A production read the type of a `process()` result that was absent. */
    | MissingNode

  /** The message of a thrown error; the two crashes are the runtime's own TypeError. */
  function Message(e: ParseError): string
    requires !e.UnexpectedEnd? && !e.MissingNode?
  {
    match e
    case UseMustUseString => "use statement must use string"
    case ImportNameNotLiteral => "must assign imports to literal"
    case ExportNotLiteral => "must export literal"
    case IfWithoutCheck => "if statement must contain check type"
    case VariableNameNotLiteral => "Variable name must be a literal"
    case AssignmentValueIsAssignment => "Variable value cannot be assignment"
    case ObjectCreationNameNotLiteral => "Object name must be a literal"
    case ObjectNameNotLiteral => "Object name must be literal"
    case ObjectKeyNotLiteralOrString => "Object key must be literal or string"
    case CallNameNotLiteral => "Function call name must be literal"
    case TooManyArithmeticArguments => "add/sub/mul/div/mod only support 2 arguments"
    case FunctionNameNotLiteral => "Function name must be literal"
    case UnknownToken(kind) => "Unknown token: " + kind
  }

  /** The token kinds `process` returns as they are. */
  predicate IsLeafToken(t: T.Token) {
    t.Literal? || t.NumberLiteral? || t.FloatLiteral? || t.StringLiteral? || IsCheckToken(t)
  }

  /** `checkTypes`: the kinds an if statement accepts as its check. */
  predicate IsCheckToken(t: T.Token) {
    t.EqualityCheck? || t.KindaCheck? || t.ContainsCheck? || t.ExistsCheck?
  }

  /** `checkTypesRightSide`: the checks that take a right operand. */
  predicate HasRightSide(t: T.Token) {
    t.EqualityCheck? || t.KindaCheck? || t.ContainsCheck?
  }

  /** `binaryCheckNodes`: the call names that build an arithmetic node. */
  function ArithmeticName(name: string): Option<ArithmeticOp> {
    if name == "add" then Some(Addition)
    else if name == "sub" then Some(Subtraction)
    else if name == "mul" then Some(Multiplication)
    else if name == "div" then Some(Division)
    else if name == "mod" then Some(Modulus)
    else None
  }

  /** A result together with the cursor after it. */
  datatype Parsed<+V> = Parsed(value: V, next: nat)

  /** The loops that collect results up to a closing token, which they then consume. */
  datatype Closer = ArrayClose | ParenClose | BraceClose

  predicate Closes(c: Closer, t: T.Token) {
    match c
    case ArrayClose => t.ArrayEnd?
    case ParenClose => t.Parenthesis? && t.value == ")"
    case BraceClose => t.DefinitionPoint? && t.value != "{"
  }

  /** `process()` at cursor `pos`: dispatch on the kind of the current token. */
  function ParseNode(ts: seq<T.Token>, pos: nat): (r: Result<Parsed<Option<Node>>, ParseError>)
    requires pos <= |ts|
    ensures r.Success? ==> pos < r.value.next <= |ts|
    decreases |ts| - pos, 1
  {
    if pos == |ts| then Failure(UnexpectedEnd)
    else
      var t := ts[pos];
      if IsLeafToken(t) then Success(Parsed(Some(Leaf(t)), pos + 1))
      else if t.ReturnStatement? then ParseReturn(ts, pos)
      else if t.LineBreak? || t.SingleLineComment? || t.MultiLineComment? then Success(Parsed(None, pos + 1))
      else if t.ImportStatement? then ParseImport(ts, pos)
      else if t.ExportStatement? then ParseExport(ts, pos)
      else if t.IfStatement? then ParseIf(ts, pos)
      else if t.ArrayStart? then ParseArray(ts, pos)
      else if t.AssignmentOperator? then ParseAssignment(ts, pos)
      else if t.MakeStatement? then ParseMake(ts, pos)
      else if t.GetStatement? then ParseGet(ts, pos)
      else if t.SetStatement? then ParseSet(ts, pos)
      else if t.Parenthesis? && t.value == "(" then ParseCall(ts, pos)
      else if t.Definition? then ParseDefinition(ts, pos)
      else if t.Iterator? then ParseIterator(ts, pos)
      else Failure(UnknownToken(T.KindName(t)))
  }

  /** Results up to the closing token of `c`, which is consumed; absent results are dropped. */
  function ParseUntil(ts: seq<T.Token>, pos: nat, c: Closer): (r: Result<Parsed<seq<Node>>, ParseError>)
    requires pos <= |ts|
    ensures r.Success? ==> pos < r.value.next <= |ts|
    decreases |ts| - pos, 2
  {
    if pos == |ts| then Failure(UnexpectedEnd)
    else if Closes(c, ts[pos]) then Success(Parsed([], pos + 1))
    else
      var first :- ParseNode(ts, pos);
      var rest :- ParseUntil(ts, first.next, c);
      Success(Parsed(OptionToSeq(first.value) + rest.value, rest.next))
  }

  /** `getDefinitionBody`: a braced block, or else exactly one `process()` call. */
  function ParseBody(ts: seq<T.Token>, pos: nat): (r: Result<Parsed<seq<Node>>, ParseError>)
    requires pos <= |ts|
    ensures r.Success? ==> pos < r.value.next <= |ts|
    decreases |ts| - pos, 3
  {
    if pos == |ts| then Failure(UnexpectedEnd)
    else if ts[pos] == T.DefinitionPoint("{") then ParseUntil(ts, pos + 1, BraceClose)
    else
      var one :- ParseNode(ts, pos);
      Success(Parsed(OptionToSeq(one.value), one.next))
  }

  function ParseReturn(ts: seq<T.Token>, pos: nat): (r: Result<Parsed<Option<Node>>, ParseError>)
    requires pos < |ts|
    ensures r.Success? ==> pos < r.value.next <= |ts|
    decreases |ts| - pos, 0
  {
    if pos + 1 < |ts| && !ts[pos + 1].LineBreak? then
      var v :- ParseNode(ts, pos + 1);
      Success(Parsed(Some(ReturnStatement(v.value)), v.next))
    else Success(Parsed(Some(ReturnStatement(None)), pos + 1))
  }

  function ParseImport(ts: seq<T.Token>, pos: nat): (r: Result<Parsed<Option<Node>>, ParseError>)
    requires pos < |ts|
    ensures r.Success? ==> pos < r.value.next <= |ts|
    decreases |ts| - pos, 0
  {
    var path :- ParseNode(ts, pos + 1);
    if path.value.None? then Failure(MissingNode)
    else if !(path.value.value.Leaf? && path.value.value.token.StringLiteral?) then Failure(UseMustUseString)
    else
      var p := path.next;
      if p < |ts| && ts[p].ImportAsStatement? then
        var name :- ParseNode(ts, p + 1);
        if name.value.None? then Failure(MissingNode)
        else if !(name.value.value.Leaf? && name.value.value.token.Literal?) then Failure(ImportNameNotLiteral)
        else Success(Parsed(Some(ImportStatement(path.value.value.token.value, Some(name.value.value.token.value))), name.next))
      else Success(Parsed(Some(ImportStatement(path.value.value.token.value, None)), p))
  }

  function ParseExport(ts: seq<T.Token>, pos: nat): (r: Result<Parsed<Option<Node>>, ParseError>)
    requires pos < |ts|
    ensures r.Success? ==> pos < r.value.next <= |ts|
    decreases |ts| - pos, 0
  {
    var name :- ParseNode(ts, pos + 1);
    if name.value.None? then Failure(MissingNode)
    else if !(name.value.value.Leaf? && name.value.value.token.Literal?) then Failure(ExportNotLiteral)
    else Success(Parsed(Some(ExportStatement(name.value.value.token.value)), name.next))
  }

  function ParseIf(ts: seq<T.Token>, pos: nat): (r: Result<Parsed<Option<Node>>, ParseError>)
    requires pos < |ts|
    ensures r.Success? ==> pos < r.value.next <= |ts|
    ensures r.Success? ==> r.value.value.Some? && r.value.value.value.IfStatement?
    decreases |ts| - pos, 0
  {
    var left :- ParseNode(ts, pos + 1);
    var check :- ParseNode(ts, left.next);
    if check.value.None? then Failure(MissingNode)
    else if !(check.value.value.Leaf? && IsCheckToken(check.value.value.token)) then Failure(IfWithoutCheck)
    else ParseIfBranches(ts, check.next, check.value.value.token, left.value)
  }

  /** The rest of an if statement once its check is known: the right operand, parsed exactly when
      the check takes one, then the bodies. */
  function ParseIfBranches(ts: seq<T.Token>, pos: nat, kind: T.Token, left: Option<Node>): (r: Result<Parsed<Option<Node>>, ParseError>)
    requires pos <= |ts|
    ensures r.Success? ==> pos < r.value.next <= |ts|
    ensures r.Success? ==> r.value.value.Some? && r.value.value.value.IfStatement?
    decreases |ts| - pos, 6
  {
    if HasRightSide(kind) then
      var right :- ParseNode(ts, pos);
      ParseIfBodies(ts, right.next, kind, left, right.value)
    else ParseIfBodies(ts, pos, kind, left, None)
  }

  /** The pass body, then what follows it. */
  function ParseIfBodies(ts: seq<T.Token>, pos: nat, kind: T.Token, left: Option<Node>, right: Option<Node>): (r: Result<Parsed<Option<Node>>, ParseError>)
    requires pos <= |ts|
    ensures r.Success? ==> pos < r.value.next <= |ts|
    ensures r.Success? ==> r.value.value.Some? && r.value.value.value.IfStatement?
    decreases |ts| - pos, 5
  {
    var pass :- ParseBody(ts, pos);
    ParseIfElse(ts, pass.next, IfStatement(kind, left, right, pass.value, NoFail))
  }

  /** The else body, exactly when `else` follows the pass body. */
  function ParseIfElse(ts: seq<T.Token>, pos: nat, node: Node): (r: Result<Parsed<Option<Node>>, ParseError>)
    requires pos <= |ts| && node.IfStatement?
    ensures r.Success? ==> pos <= r.value.next <= |ts|
    ensures r.Success? ==> r.value.value.Some? && r.value.value.value.IfStatement?
    decreases |ts| - pos, 4
  {
    if pos < |ts| && ts[pos].ElseExpression? then
      var fail :- ParseBody(ts, pos + 1);
      Success(Parsed(Some(node.(fail := Fail(fail.value))), fail.next))
    else Success(Parsed(Some(node), pos))
  }

  function ParseArray(ts: seq<T.Token>, pos: nat): (r: Result<Parsed<Option<Node>>, ParseError>)
    requires pos < |ts|
    ensures r.Success? ==> pos < r.value.next <= |ts|
    decreases |ts| - pos, 0
  {
    var elements :- ParseUntil(ts, pos + 1, ArrayClose);
    Success(Parsed(Some(Array(elements.value)), elements.next))
  }

  function ParseAssignment(ts: seq<T.Token>, pos: nat): (r: Result<Parsed<Option<Node>>, ParseError>)
    requires pos < |ts|
    ensures r.Success? ==> pos < r.value.next <= |ts|
    decreases |ts| - pos, 0
  {
    if pos + 1 == |ts| then Failure(UnexpectedEnd)
    else if !ts[pos + 1].Literal? then Failure(VariableNameNotLiteral)
    else
      var v :- ParseNode(ts, pos + 2);
      if v.value.None? then Failure(MissingNode)
      else if v.value.value.Assignment? then Failure(AssignmentValueIsAssignment)
      else Success(Parsed(Some(Assignment(ts[pos + 1].value, v.value.value)), v.next))
  }

  function ParseMake(ts: seq<T.Token>, pos: nat): (r: Result<Parsed<Option<Node>>, ParseError>)
    requires pos < |ts|
    ensures r.Success? ==> pos < r.value.next <= |ts|
  {
    if pos + 1 == |ts| then Failure(UnexpectedEnd)
    else if !ts[pos + 1].Literal? then Failure(ObjectCreationNameNotLiteral)
    else Success(Parsed(Some(ObjectCreation(ts[pos + 1].value)), pos + 2))
  }

  /** The name and key tokens that follow a get or set statement. */
  function ParseNameAndKey(ts: seq<T.Token>, pos: nat): (r: Result<(string, T.Token), ParseError>)
    requires pos < |ts|
    ensures r.Success? <==>
      pos + 2 < |ts| && ts[pos + 1].Literal? && (ts[pos + 2].Literal? || ts[pos + 2].StringLiteral?)
    ensures r.Success? ==> r.value == (ts[pos + 1].value, ts[pos + 2])
  {
    if pos + 1 == |ts| then Failure(UnexpectedEnd)
    else if !ts[pos + 1].Literal? then Failure(ObjectNameNotLiteral)
    else if pos + 2 == |ts| then Failure(UnexpectedEnd)
    else if !(ts[pos + 2].Literal? || ts[pos + 2].StringLiteral?) then Failure(ObjectKeyNotLiteralOrString)
    else Success((ts[pos + 1].value, ts[pos + 2]))
  }

  function ParseGet(ts: seq<T.Token>, pos: nat): (r: Result<Parsed<Option<Node>>, ParseError>)
    requires pos < |ts|
    ensures r.Success? ==> pos < r.value.next <= |ts|
  {
    var nk :- ParseNameAndKey(ts, pos);
    Success(Parsed(Some(ObjectGet(nk.0, nk.1)), pos + 3))
  }

  function ParseSet(ts: seq<T.Token>, pos: nat): (r: Result<Parsed<Option<Node>>, ParseError>)
    requires pos < |ts|
    ensures r.Success? ==> pos < r.value.next <= |ts|
    decreases |ts| - pos, 0
  {
    var nk :- ParseNameAndKey(ts, pos);
    var v :- ParseNode(ts, pos + 3);
    Success(Parsed(Some(ObjectSet(nk.0, nk.1, v.value)), v.next))
  }

  /** The element at `i`, absent past the end (as `args[i]` is `undefined`). */
  function ArgAt(args: seq<Node>, i: nat): Option<Node> {
    if i < |args| then Some(args[i]) else None
  }

  function ParseCall(ts: seq<T.Token>, pos: nat): (r: Result<Parsed<Option<Node>>, ParseError>)
    requires pos < |ts|
    ensures r.Success? ==> pos < r.value.next <= |ts|
    decreases |ts| - pos, 0
  {
    if pos + 1 == |ts| then Failure(UnexpectedEnd)
    else if !ts[pos + 1].Literal? then Failure(CallNameNotLiteral)
    else
      var name := ts[pos + 1].value;
      var args :- ParseUntil(ts, pos + 2, ParenClose);
      match ArithmeticName(name)
      case Some(op) =>
        if |args.value| > 2 then Failure(TooManyArithmeticArguments)
        else Success(Parsed(Some(Arithmetic(op, ArgAt(args.value, 0), ArgAt(args.value, 1))), args.next))
      case None => Success(Parsed(Some(FunctionCall(name, args.value)), args.next))
  }

  function ParseDefinition(ts: seq<T.Token>, pos: nat): (r: Result<Parsed<Option<Node>>, ParseError>)
    requires pos < |ts|
    ensures r.Success? ==> pos < r.value.next <= |ts|
    decreases |ts| - pos, 0
  {
    if pos + 1 == |ts| then Failure(UnexpectedEnd)
    else if !ts[pos + 1].Literal? then Failure(FunctionNameNotLiteral)
    else if pos + 3 > |ts| then Failure(UnexpectedEnd)
    else
      var args :- ParseUntil(ts, pos + 3, ArrayClose);
      var body :- ParseBody(ts, args.next);
      Success(Parsed(Some(FunctionDefinition(ts[pos + 1].value, body.value, args.value, None)), body.next))
  }

  function ParseIterator(ts: seq<T.Token>, pos: nat): (r: Result<Parsed<Option<Node>>, ParseError>)
    requires pos < |ts|
    ensures r.Success? ==> pos < r.value.next <= |ts|
    decreases |ts| - pos, 0
  {
    var source :- ParseNode(ts, pos + 1);
    var body :- ParseBody(ts, source.next);
    Success(Parsed(Some(Iterator(source.value, body.value)), body.next))
  }

  /** The top-level loop from cursor `pos`: results up to the end of the list. */
  function ParseTop(ts: seq<T.Token>, pos: nat): (r: Result<seq<Node>, ParseError>)
    requires pos <= |ts|
    decreases |ts| - pos
    ensures r.Success? ==> |r.value| <= |ts| - pos
  {
    if pos == |ts| then Success([])
    else
      var first :- ParseNode(ts, pos);
      var rest :- ParseTop(ts, first.next);
      Success(OptionToSeq(first.value) + rest)
  }

  /** `toAST`. */
  function ParseProgram(ts: seq<T.Token>): (r: Result<Program, ParseError>)
    ensures r.Success? ==> |r.value.body| <= |ts|
  {
    var body :- ParseTop(ts, 0);
    Success(Program(body))
  }

  /** A method's result together with where it left the cursor, in the shape of the functions above. */
  function At<V>(r: Result<V, ParseError>, pos: nat): Result<Parsed<V>, ParseError> {
    match r
    case Success(v) => Success(Parsed(v, pos))
    case Failure(e) => Failure(e)
  }

  /** Nodes already collected, in front of a collection still to come. */
  function PrependNodes(items: seq<Node>, r: Result<Parsed<seq<Node>>, ParseError>): Result<Parsed<seq<Node>>, ParseError> {
    match r
    case Success(Parsed(rest, next)) => Success(Parsed(items + rest, next))
    case Failure(e) => Failure(e)
  }

  lemma PrependNodesTwice(a: seq<Node>, b: seq<Node>, r: Result<Parsed<seq<Node>>, ParseError>)
    ensures PrependNodes(a, PrependNodes(b, r)) == PrependNodes(a + b, r)
  {
    if r.Success? {
      assert a + (b + r.value.value) == (a + b) + r.value.value;
    }
  }

  /** The state `toAST` shares between its inner functions: the token list and `currentIndex`. */
  class Parser {
    const tokens: seq<T.Token>
    var pos: nat

    constructor (tokens: seq<T.Token>)
      ensures this.tokens == tokens && pos == 0
    {
      this.tokens := tokens;
      pos := 0;
    }

    /** `process`: one production at the cursor, chosen by the current token's kind. */
    method Process() returns (r: Result<Option<Node>, ParseError>)
      requires pos <= |tokens|
      modifies this
      ensures At(r, pos) == ParseNode(tokens, old(pos))
      decreases |tokens| - pos, 1
    {
      if pos == |tokens| {
        return Failure(UnexpectedEnd);
      }
      var t := tokens[pos];
      if IsLeafToken(t) {
        pos := pos + 1;
        return Success(Some(Leaf(t)));
      }
      if t.ReturnStatement? {
        r := ProcessReturn();
      } else if t.LineBreak? || t.SingleLineComment? || t.MultiLineComment? {
        pos := pos + 1;
        r := Success(None);
      } else if t.ImportStatement? {
        r := ProcessImport();
      } else if t.ExportStatement? {
        r := ProcessExport();
      } else if t.IfStatement? {
        r := ProcessIf();
      } else if t.ArrayStart? {
        r := ProcessArray();
      } else if t.AssignmentOperator? {
        r := ProcessAssignment();
      } else if t.MakeStatement? {
        r := ProcessMake();
      } else if t.GetStatement? {
        r := ProcessGet();
      } else if t.SetStatement? {
        r := ProcessSet();
      } else if t.Parenthesis? && t.value == "(" {
        r := ProcessCall();
      } else if t.Definition? {
        r := ProcessDefinition();
      } else if t.Iterator? {
        r := ProcessIterator();
      } else {
        r := Failure(UnknownToken(T.KindName(t)));
      }
    }

    /** The collecting loops of the source: `process()` until the closing token, which is skipped. */
    method CollectUntil(c: Closer) returns (r: Result<seq<Node>, ParseError>)
      requires pos <= |tokens|
      modifies this
      ensures At(r, pos) == ParseUntil(tokens, old(pos), c)
      decreases |tokens| - pos, 2
    {
      var items: seq<Node> := [];
      assert PrependNodes(items, ParseUntil(tokens, pos, c)) == ParseUntil(tokens, pos, c) by {
        if ParseUntil(tokens, pos, c).Success? {
          assert items + ParseUntil(tokens, pos, c).value.value == ParseUntil(tokens, pos, c).value.value;
        }
      }
      while true
        invariant old(pos) <= pos <= |tokens|
        invariant ParseUntil(tokens, old(pos), c) == PrependNodes(items, ParseUntil(tokens, pos, c))
        decreases |tokens| - pos
      {
        if pos == |tokens| {
          return Failure(UnexpectedEnd);
        }
        if Closes(c, tokens[pos]) {
          pos := pos + 1;
          assert items + [] == items;
          return Success(items);
        }
        ghost var at := pos;
        var next :- Process();
        PrependNodesTwice(items, OptionToSeq(next), ParseUntil(tokens, pos, c));
        items := items + OptionToSeq(next);
      }
    }

    /** `getDefinitionBody`. */
    method GetDefinitionBody() returns (r: Result<seq<Node>, ParseError>)
      requires pos <= |tokens|
      modifies this
      ensures At(r, pos) == ParseBody(tokens, old(pos))
      decreases |tokens| - pos, 3
    {
      if pos == |tokens| {
        return Failure(UnexpectedEnd);
      }
      if tokens[pos] == T.DefinitionPoint("{") {
        pos := pos + 1;
        r := CollectUntil(BraceClose);
        return;
      }
      var one :- Process();
      return Success(OptionToSeq(one));
    }

    method ProcessReturn() returns (r: Result<Option<Node>, ParseError>)
      requires pos < |tokens|
      modifies this
      ensures At(r, pos) == ParseReturn(tokens, old(pos))
      decreases |tokens| - pos, 0
    {
      pos := pos + 1;
      var v: Option<Node> := None;
      if pos < |tokens| && !tokens[pos].LineBreak? {
        v :- Process();
      }
      return Success(Some(ReturnStatement(v)));
    }

    method ProcessImport() returns (r: Result<Option<Node>, ParseError>)
      requires pos < |tokens|
      modifies this
      ensures At(r, pos) == ParseImport(tokens, old(pos))
      decreases |tokens| - pos, 0
    {
      pos := pos + 1;
      var next :- Process();
      if next.None? {
        return Failure(MissingNode);
      }
      if !(next.value.Leaf? && next.value.token.StringLiteral?) {
        return Failure(UseMustUseString);
      }
      var path := next.value.token.value;
      if pos < |tokens| && tokens[pos].ImportAsStatement? {
        pos := pos + 1;
        var name :- Process();
        if name.None? {
          return Failure(MissingNode);
        }
        if !(name.value.Leaf? && name.value.token.Literal?) {
          return Failure(ImportNameNotLiteral);
        }
        return Success(Some(ImportStatement(path, Some(name.value.token.value))));
      }
      return Success(Some(ImportStatement(path, None)));
    }

    method ProcessExport() returns (r: Result<Option<Node>, ParseError>)
      requires pos < |tokens|
      modifies this
      ensures At(r, pos) == ParseExport(tokens, old(pos))
      decreases |tokens| - pos, 0
    {
      pos := pos + 1;
      var next :- Process();
      if next.None? {
        return Failure(MissingNode);
      }
      if !(next.value.Leaf? && next.value.token.Literal?) {
        return Failure(ExportNotLiteral);
      }
      return Success(Some(ExportStatement(next.value.token.value)));
    }

    method ProcessIf() returns (r: Result<Option<Node>, ParseError>)
      requires pos < |tokens|
      modifies this
      ensures At(r, pos) == ParseIf(tokens, old(pos))
      decreases |tokens| - pos, 0
    {
      pos := pos + 1;
      var left :- Process();
      var checkNode :- Process();
      if checkNode.None? {
        return Failure(MissingNode);
      }
      if !(checkNode.value.Leaf? && IsCheckToken(checkNode.value.token)) {
        return Failure(IfWithoutCheck);
      }
      r := ProcessIfBranches(checkNode.value.token, left);
    }

    method ProcessIfBranches(kind: T.Token, left: Option<Node>) returns (r: Result<Option<Node>, ParseError>)
      requires pos <= |tokens|
      modifies this
      ensures At(r, pos) == ParseIfBranches(tokens, old(pos), kind, left)
      decreases |tokens| - pos, 6
    {
      var right: Option<Node> := None;
      if HasRightSide(kind) {
        right :- Process();
      }
      r := ProcessIfBodies(kind, left, right);
    }

    method ProcessIfBodies(kind: T.Token, left: Option<Node>, right: Option<Node>) returns (r: Result<Option<Node>, ParseError>)
      requires pos <= |tokens|
      modifies this
      ensures At(r, pos) == ParseIfBodies(tokens, old(pos), kind, left, right)
      decreases |tokens| - pos, 5
    {
      var pass :- GetDefinitionBody();
      r := ProcessIfElse(IfStatement(kind, left, right, pass, NoFail));
    }

    method ProcessIfElse(node: Node) returns (r: Result<Option<Node>, ParseError>)
      requires pos <= |tokens| && node.IfStatement?
      modifies this
      ensures At(r, pos) == ParseIfElse(tokens, old(pos), node)
      decreases |tokens| - pos, 4
    {
      if pos < |tokens| && tokens[pos].ElseExpression? {
        pos := pos + 1;
        var fail :- GetDefinitionBody();
        return Success(Some(node.(fail := Fail(fail))));
      }
      return Success(Some(node));
    }

    method ProcessArray() returns (r: Result<Option<Node>, ParseError>)
      requires pos < |tokens|
      modifies this
      ensures At(r, pos) == ParseArray(tokens, old(pos))
      decreases |tokens| - pos, 0
    {
      pos := pos + 1;
      var elements :- CollectUntil(ArrayClose);
      return Success(Some(Array(elements)));
    }

    method ProcessAssignment() returns (r: Result<Option<Node>, ParseError>)
      requires pos < |tokens|
      modifies this
      ensures At(r, pos) == ParseAssignment(tokens, old(pos))
      decreases |tokens| - pos, 0
    {
      pos := pos + 1;
      if pos == |tokens| {
        return Failure(UnexpectedEnd);
      }
      var nameToken := tokens[pos];
      pos := pos + 1;
      if !nameToken.Literal? {
        return Failure(VariableNameNotLiteral);
      }
      var v :- Process();
      if v.None? {
        return Failure(MissingNode);
      }
      if v.value.Assignment? {
        return Failure(AssignmentValueIsAssignment);
      }
      return Success(Some(Assignment(nameToken.value, v.value)));
    }

    method ProcessMake() returns (r: Result<Option<Node>, ParseError>)
      requires pos < |tokens|
      modifies this
      ensures At(r, pos) == ParseMake(tokens, old(pos))
    {
      pos := pos + 1;
      if pos == |tokens| {
        return Failure(UnexpectedEnd);
      }
      var nameToken := tokens[pos];
      pos := pos + 1;
      if !nameToken.Literal? {
        return Failure(ObjectCreationNameNotLiteral);
      }
      return Success(Some(ObjectCreation(nameToken.value)));
    }

    /** The name and key tokens after a get or set statement, each read and then skipped. */
    method NameAndKey() returns (r: Result<(string, T.Token), ParseError>)
      requires pos < |tokens|
      modifies this
      ensures r == ParseNameAndKey(tokens, old(pos))
      ensures r.Success? ==> pos == old(pos) + 3
    {
      pos := pos + 1;
      if pos == |tokens| {
        return Failure(UnexpectedEnd);
      }
      var nameToken := tokens[pos];
      pos := pos + 1;
      if !nameToken.Literal? {
        return Failure(ObjectNameNotLiteral);
      }
      if pos == |tokens| {
        return Failure(UnexpectedEnd);
      }
      var keyToken := tokens[pos];
      pos := pos + 1;
      if !(keyToken.Literal? || keyToken.StringLiteral?) {
        return Failure(ObjectKeyNotLiteralOrString);
      }
      return Success((nameToken.value, keyToken));
    }

    method ProcessGet() returns (r: Result<Option<Node>, ParseError>)
      requires pos < |tokens|
      modifies this
      ensures At(r, pos) == ParseGet(tokens, old(pos))
    {
      var nk :- NameAndKey();
      return Success(Some(ObjectGet(nk.0, nk.1)));
    }

    method ProcessSet() returns (r: Result<Option<Node>, ParseError>)
      requires pos < |tokens|
      modifies this
      ensures At(r, pos) == ParseSet(tokens, old(pos))
      decreases |tokens| - pos, 0
    {
      var nk :- NameAndKey();
      var v :- Process();
      return Success(Some(ObjectSet(nk.0, nk.1, v)));
    }

    method ProcessCall() returns (r: Result<Option<Node>, ParseError>)
      requires pos < |tokens|
      modifies this
      ensures At(r, pos) == ParseCall(tokens, old(pos))
      decreases |tokens| - pos, 0
    {
      pos := pos + 1;
      if pos == |tokens| {
        return Failure(UnexpectedEnd);
      }
      var nameToken := tokens[pos];
      pos := pos + 1;
      if !nameToken.Literal? {
        return Failure(CallNameNotLiteral);
      }
      var args :- CollectUntil(ParenClose);
      var op := ArithmeticName(nameToken.value);
      if op.Some? {
        if |args| > 2 {
          return Failure(TooManyArithmeticArguments);
        }
        return Success(Some(Arithmetic(op.value, ArgAt(args, 0), ArgAt(args, 1))));
      }
      return Success(Some(FunctionCall(nameToken.value, args)));
    }

    method ProcessDefinition() returns (r: Result<Option<Node>, ParseError>)
      requires pos < |tokens|
      modifies this
      ensures At(r, pos) == ParseDefinition(tokens, old(pos))
      decreases |tokens| - pos, 0
    {
      pos := pos + 1;
      if pos == |tokens| {
        return Failure(UnexpectedEnd);
      }
      var nameToken := tokens[pos];
      pos := pos + 1;
      if !nameToken.Literal? {
        return Failure(FunctionNameNotLiteral);
      }
      // the token after the name is skipped without looking at it
      if pos + 1 > |tokens| {
        return Failure(UnexpectedEnd);
      }
      pos := pos + 1;
      var args :- CollectUntil(ArrayClose);
      var body :- GetDefinitionBody();
      return Success(Some(FunctionDefinition(nameToken.value, body, args, None)));
    }

    method ProcessIterator() returns (r: Result<Option<Node>, ParseError>)
      requires pos < |tokens|
      modifies this
      ensures At(r, pos) == ParseIterator(tokens, old(pos))
      decreases |tokens| - pos, 0
    {
      pos := pos + 1;
      var source :- Process();
      var body :- GetDefinitionBody();
      return Success(Some(Iterator(source, body)));
    }
  }

  /** Top-level results already collected, in front of the rest of the program. */
  function PrependTop(items: seq<Node>, r: Result<seq<Node>, ParseError>): Result<seq<Node>, ParseError> {
    match r
    case Success(rest) => Success(items + rest)
    case Failure(e) => Failure(e)
  }

  lemma PrependTopTwice(a: seq<Node>, b: seq<Node>, r: Result<seq<Node>, ParseError>)
    ensures PrependTop(a, PrependTop(b, r)) == PrependTop(a + b, r)
  {
    if r.Success? {
      assert a + (b + r.value) == (a + b) + r.value;
    }
  }

  /** One turn of the top-level loop: the node `process()` returns, in front of the rest. */
  lemma TopStep(ts: seq<T.Token>, pos: nat)
    requires pos < |ts| && ParseNode(ts, pos).Success?
    ensures ParseTop(ts, pos) ==
      PrependTop(OptionToSeq(ParseNode(ts, pos).value.value), ParseTop(ts, ParseNode(ts, pos).value.next))
  {
  }

  /** `toAST`: `process()` until every token is consumed, keeping the results that are present. */
  method ToAST(tokens: seq<T.Token>) returns (r: Result<Program, ParseError>)
    ensures r == ParseProgram(tokens)
  {
    var parser := new Parser(tokens);
    var body: seq<Node> := [];
    assert PrependTop(body, ParseTop(tokens, 0)) == ParseTop(tokens, 0) by {
      if ParseTop(tokens, 0).Success? {
        assert body + ParseTop(tokens, 0).value == ParseTop(tokens, 0).value;
      }
    }
    while parser.pos < |tokens|
      invariant parser.pos <= |tokens|
      invariant ParseTop(tokens, 0) == PrependTop(body, ParseTop(tokens, parser.pos))
      decreases |tokens| - parser.pos
    {
      ghost var before := parser.pos;
      var next := parser.Process();
      if next.Failure? {
        return Failure(next.error);
      }
      TopStep(tokens, before);
      PrependTopTwice(body, OptionToSeq(next.value), ParseTop(tokens, parser.pos));
      body := body + OptionToSeq(next.value);
    }
    assert body + [] == body;
    return Success(Program(body));
  }
}
