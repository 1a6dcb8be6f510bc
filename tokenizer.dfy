/**
 * The lexer of lib/tokenizer.js: one forward scan over the input with a
 * single cursor, appending tokens to an output list.
 *
 * `Step` and `LexFrom` are the specification of the scan, rule by rule in
 * the source's priority order; `Tokenize` is the scan loop itself, proved to
 * compute `Lex`.  The regular expressions of the source are replaced by the
 * character classes of `CharClass`.
 */
module Tokenizer {
  import opened Wrappers

  /** Every token kind the lexer emits, plus the kinds the parser reads but the lexer never emits
      (KindaCheck, ExistsCheck, ReturnStatement, MakeStatement, GetStatement, SetStatement). */
  datatype Token =
    | LineBreak
    | AssignmentOperator
    | Iterator
    | IfStatement
    | ElseExpression
    | EqualityCheck
    | KindaCheck
    | ContainsCheck
    | ExistsCheck
    | ImportStatement
    | ImportAsStatement
    | ExportStatement
    | ReturnStatement
    | MakeStatement
    | GetStatement
    | SetStatement
    | Definition
    | Literal(value: string)
    | NumberLiteral(value: string)
    | FloatLiteral(value: string)
    | StringLiteral(value: string)
    | ArrayStart
    | ArrayEnd
    | DefinitionPoint(value: string)
    | Parenthesis(value: string)
    | SingleLineComment(value: string)
    | MultiLineComment(values: seq<string>)

  /** The `type` string of a token, as the parser's "Unknown token" message shows it. */
  function KindName(t: Token): string {
    match t
    case LineBreak => "LineBreak"
    case AssignmentOperator => "AssignmentOperator"
    case Iterator => "Iterator"
    case IfStatement => "IfStatement"
    case ElseExpression => "ElseExpression"
    case EqualityCheck => "EqualityCheck"
    case KindaCheck => "KindaCheck"
    case ContainsCheck => "ContainsCheck"
    case ExistsCheck => "ExistsCheck"
    case ImportStatement => "ImportStatement"
    case ImportAsStatement => "ImportAsStatement"
    case ExportStatement => "ExportStatement"
    case ReturnStatement => "ReturnStatement"
    case MakeStatement => "MakeStatement"
    case GetStatement => "GetStatement"
    case SetStatement => "SetStatement"
    case Definition => "Definition"
    case Literal(_) => "Literal"
    case NumberLiteral(_) => "NumberLiteral"
    case FloatLiteral(_) => "FloatLiteral"
    case StringLiteral(_) => "StringLiteral"
    case ArrayStart => "ArrayStart"
    case ArrayEnd => "ArrayEnd"
    case DefinitionPoint(_) => "DefinitionPoint"
    case Parenthesis(_) => "Parenthesis"
    case SingleLineComment(_) => "SingleLineComment"
    case MultiLineComment(_) => "MultiLineComment"
  }

  /** The two errors the scan throws: an unrecognised character, and a number ending in `.`. */
  datatype LexError = UnknownToken(character: char) | InvalidCharacterDot

  predicate IsLetter(c: char) {
    'a' <= c <= 'z' || 'A' <= c <= 'Z'
  }

  predicate IsDigit(c: char) {
    '0' <= c <= '9'
  }

  /** The character classes the scan's regular expressions test one character against. */
  datatype CharClass =
    | Letter          // [a-zA-Z]
    | LetterDigitDot  // [a-zA-Z0-9\.]
    | Digit           // [0-9]
    | DigitDot        // [0-9\.]
    | NotQuote        // [^']
    | NotNewline      // [^\n]
    | AnyChar         // (?!\*\/) tested on one character, which always succeeds

  predicate Matches(k: CharClass, c: char) {
    match k
    case Letter => IsLetter(c)
    case LetterDigitDot => IsLetter(c) || IsDigit(c) || c == '.'
    case Digit => IsDigit(c)
    case DigitDot => IsDigit(c) || c == '.'
    case NotQuote => c != '\''
    case NotNewline => c != '\n'
    case AnyChar => true
  }

  /** The class the lookahead tests the character at offset `k` of its bucket against. */
  function ClassAt(k: nat, first: CharClass, rest: CharClass): CharClass {
    if k == 0 then first else rest
  }

  /** The end of the maximal run at `start` whose first character is in `first` and whose
      later characters are in `rest`. */
  function RunEnd(input: string, start: nat, first: CharClass, rest: CharClass): (end: nat)
    requires start <= |input|
    ensures start <= end <= |input|
    ensures forall i | start <= i < end :: Matches(ClassAt(i - start, first, rest), input[i])
    ensures end == |input| || !Matches(ClassAt(end - start, first, rest), input[end])
  {
    if start < |input| && Matches(first, input[start]) then RestEnd(input, start + 1, rest) else start
  }

  /** The end of the maximal run at `i` of characters in `rest`. */
  function RestEnd(input: string, i: nat, rest: CharClass): (end: nat)
    requires i <= |input|
    ensures i <= end <= |input|
    ensures forall j | i <= j < end :: Matches(rest, input[j])
    ensures end == |input| || !Matches(rest, input[end])
    decreases |input| - i
  {
    if i < |input| && Matches(rest, input[i]) then RestEnd(input, i + 1, rest) else i
  }

  /** `s` occurs in `input` at `pos` (the `lookaheadString` helper). */
  predicate StartsWith(input: string, pos: nat, s: string) {
    pos + |s| <= |input| && input[pos..pos + |s|] == s
  }

  /** Drops the last two elements, or all of them when there are fewer (two `pop` calls). */
  function DropLastTwo(s: string): (r: string)
    ensures |r| == if |s| >= 2 then |s| - 2 else 0
    ensures r == s[..|r|]
  {
    if |s| >= 2 then s[..|s| - 2] else []
  }

  /** Joins `parts` with `sep` between neighbours. */
  function Join(parts: seq<string>, sep: char): string
    requires |parts| >= 1
  {
    if |parts| == 1 then parts[0] else parts[0] + [sep] + Join(parts[1..], sep)
  }

  /** `String.prototype.split` on one character: the pieces between the separators, and at
      least one piece (the empty string splits into one empty piece). */
  function Split(s: string, sep: char): (parts: seq<string>)
    ensures |parts| >= 1
    ensures forall i | 0 <= i < |parts| :: sep !in parts[i]
    ensures Join(parts, sep) == s
  {
    if |s| == 0 then [""]
    else
      var tail := Split(s[1..], sep);
      if s[0] == sep then [""] + tail
      else [[s[0]] + tail[0]] + tail[1..]
  }

  /** What one iteration of the scan produced: at most one token, and the new cursor. */
  datatype Scan = Scan(token: Option<Token>, next: nat)

  function Emit(t: Token, next: nat): Result<Scan, LexError> {
    Success(Scan(Some(t), next))
  }

  /** One iteration of the scan loop at cursor `pos`, rule by rule in the source's order:
      spaces, the one-character tokens tested before the keywords, then `KeywordStep`. */
  function Step(input: string, pos: nat): (r: Result<Scan, LexError>)
    requires pos < |input|
    ensures r.Success? ==> pos < r.value.next <= |input| + 2
  {
    var c := input[pos];
    if c == ' ' then Success(Scan(None, pos + 1))
    else if c == '\n' then Emit(LineBreak, pos + 1)
    else if c == '$' then Emit(AssignmentOperator, pos + 1)
    else if c == '@' then Emit(Iterator, pos + 1)
    else if c == '?' then Emit(IfStatement, pos + 1)
    else KeywordStep(input, pos)
  }

  /** The six keywords, matched as bare prefixes in this order, then `RunStep`. */
  function KeywordStep(input: string, pos: nat): (r: Result<Scan, LexError>)
    requires pos < |input|
    ensures r.Success? ==> pos < r.value.next <= |input| + 2
  {
    if StartsWith(input, pos, "else") then Emit(ElseExpression, pos + 4)
    else if StartsWith(input, pos, "is") then Emit(EqualityCheck, pos + 2)
    else if StartsWith(input, pos, "contains") then Emit(ContainsCheck, pos + 8)
    else if StartsWith(input, pos, "use") then Emit(ImportStatement, pos + 3)
    else if StartsWith(input, pos, "as") then Emit(ImportAsStatement, pos + 2)
    else if StartsWith(input, pos, "export") then Emit(ExportStatement, pos + 6)
    else RunStep(input, pos)
  }

  /** Identifiers, numbers and strings (the rules that read a run of characters), then `SymbolStep`. */
  function RunStep(input: string, pos: nat): (r: Result<Scan, LexError>)
    requires pos < |input|
    ensures r.Success? ==> pos < r.value.next <= |input| + 2
  {
    var c := input[pos];
    if IsLetter(c) then
      var end := RunEnd(input, pos, Letter, LetterDigitDot);
      var word := input[pos..end];
      Emit(if word == "def" then Definition else Literal(word), end)
    else if IsDigit(c) then
      var end := RunEnd(input, pos, Digit, DigitDot);
      var digits := input[pos..end];
      if input[end - 1] == '.' then Failure(InvalidCharacterDot)
      else Emit(if '.' in digits then FloatLiteral(digits) else NumberLiteral(digits), end)
    else if c == '\'' then
      var end := RunEnd(input, pos + 1, NotQuote, NotQuote);
      Emit(StringLiteral(input[pos + 1..end]), end + 1)
    else SymbolStep(input, pos)
  }

  /** Brackets, braces and parentheses, then `CommentStep`. */
  function SymbolStep(input: string, pos: nat): (r: Result<Scan, LexError>)
    requires pos < |input|
    ensures r.Success? ==> pos < r.value.next <= |input| + 2
  {
    var c := input[pos];
    if c == '[' then Emit(ArrayStart, pos + 1)
    else if c == ']' then Emit(ArrayEnd, pos + 1)
    else if c == '{' || c == '}' then Emit(DefinitionPoint([c]), pos + 1)
    else if c == '(' || c == ')' then Emit(Parenthesis([c]), pos + 1)
    else CommentStep(input, pos)
  }

  /** The two comment forms; anything else is an unknown character. */
  function CommentStep(input: string, pos: nat): (r: Result<Scan, LexError>)
    requires pos < |input|
    ensures r.Success? ==> pos < r.value.next <= |input| + 2
  {
    var c := input[pos];
    if c == '/' && pos + 1 < |input| && input[pos + 1] == '/' then
      var end := RunEnd(input, pos + 2, NotNewline, NotNewline);
      Emit(SingleLineComment(input[pos + 2..end]), end)
    else if c == '/' && pos + 1 < |input| && input[pos + 1] == '*' then
      var text := DropLastTwo(input[pos + 2..RunEnd(input, pos + 2, AnyChar, AnyChar)]);
      Emit(MultiLineComment(Split(text, '\n')), pos + 2 + |text| + 2)
    else Failure(UnknownToken(c))
  }

  /** The tokens of `input` from cursor `pos` on, or the first error. */
  function LexFrom(input: string, pos: nat): (r: Result<seq<Token>, LexError>)
    decreases |input| - pos
    ensures r.Success? ==> |r.value| <= if pos < |input| then |input| - pos else 0
  {
    if pos >= |input| then Success([])
    else match Step(input, pos)
      case Failure(e) => Failure(e)
      case Success(Scan(t, next)) => Prepend(OptionToSeq(t), LexFrom(input, next))
  }

  function Lex(input: string): (r: Result<seq<Token>, LexError>)
    ensures r.Success? ==> |r.value| <= |input|
  {
    LexFrom(input, 0)
  }

  /** Tokens already pushed, in front of a result still to come. */
  function Prepend(done: seq<Token>, r: Result<seq<Token>, LexError>): Result<seq<Token>, LexError> {
    match r
    case Success(ts) => Success(done + ts)
    case Failure(e) => Failure(e)
  }

  lemma PrependNothing(r: Result<seq<Token>, LexError>)
    ensures Prepend([], r) == r
  {
    if r.Success? {
      assert [] + r.value == r.value;
    }
  }

  lemma PrependTwice(a: seq<Token>, b: seq<Token>, r: Result<seq<Token>, LexError>)
    ensures Prepend(a, Prepend(b, r)) == Prepend(a + b, r)
  {
    if r.Success? {
      assert a + (b + r.value) == (a + b) + r.value;
    }
  }

  /** The `lookahead` helper: grows a bucket from `pos` while each character is in its class
      (`first` for the first, `rest` for the others). */
  method Lookahead(input: string, pos: nat, first: CharClass, rest: CharClass) returns (bucket: string)
    requires pos <= |input|
    ensures pos + |bucket| <= |input| && bucket == input[pos..pos + |bucket|]
    ensures forall k | 0 <= k < |bucket| :: Matches(ClassAt(k, first, rest), bucket[k])
    ensures pos + |bucket| == |input| || !Matches(ClassAt(|bucket|, first, rest), input[pos + |bucket|])
    ensures pos + |bucket| == RunEnd(input, pos, first, rest)
  {
    bucket := [];
    while true
      invariant pos + |bucket| <= |input|
      invariant bucket == input[pos..pos + |bucket|]
      invariant forall k | 0 <= k < |bucket| :: Matches(ClassAt(k, first, rest), bucket[k])
      decreases |input| - |bucket|
    {
      var nextIndex := pos + |bucket|;
      if nextIndex >= |input| {
        break;
      }
      var next := input[nextIndex];
      var m := if |bucket| > 0 then rest else first;
      if !Matches(m, next) {
        break;
      }
      bucket := bucket + [next];
    }
    RunEndUnique(input, pos, first, rest, pos + |bucket|);
  }

  /** The maximal run is unique: any end with the run's two properties is `RunEnd`. */
  lemma RunEndUnique(input: string, start: nat, first: CharClass, rest: CharClass, end: nat)
    requires start <= end <= |input|
    requires forall i | start <= i < end :: Matches(ClassAt(i - start, first, rest), input[i])
    requires end == |input| || !Matches(ClassAt(end - start, first, rest), input[end])
    ensures end == RunEnd(input, start, first, rest)
  {
  }

  /** The `lookaheadString` helper: compares `s` with the input at `pos`, character by character. */
  method LookaheadString(input: string, pos: nat, s: string) returns (b: bool)
    requires pos <= |input|
    ensures b == StartsWith(input, pos, s)
  {
    var i := 0;
    while i < |s|
      invariant 0 <= i <= |s|
      invariant pos + i <= |input|
      invariant input[pos..pos + i] == s[..i]
    {
      if pos + i >= |input| || input[pos + i] != s[i] {
        return false;
      }
      i := i + 1;
    }
    return true;
  }

  /** The two `pop` calls on the block comment's bucket (a `pop` on an empty list does nothing). */
  method PopTwice(bucket: string) returns (b: string)
    ensures b == DropLastTwo(bucket)
  {
    b := bucket;
    if |b| > 0 {
      b := b[..|b| - 1];
    }
    if |b| > 0 {
      b := b[..|b| - 1];
    }
    assert |bucket| >= 2 ==> b == bucket[..|bucket| - 2];
  }

  /** The scan loop of `tokenizer`: each iteration runs `ScanOne` and pushes what it found. */
  method Tokenize(input: string) returns (r: Result<seq<Token>, LexError>)
    ensures r == Lex(input)
  {
    var out: seq<Token> := [];
    var pos: nat := 0;
    PrependNothing(LexFrom(input, 0));
    while pos < |input|
      invariant pos <= |input| + 2
      invariant Lex(input) == Prepend(out, LexFrom(input, pos))
      decreases |input| - pos
    {
      var scan := ScanOne(input, pos);
      if scan.Failure? {
        return Failure(scan.error);
      }
      PrependTwice(out, OptionToSeq(scan.value.token), LexFrom(input, scan.value.next));
      out, pos := out + OptionToSeq(scan.value.token), scan.value.next;
    }
    assert LexFrom(input, pos) == Success([]);
    assert out + [] == out;
    return Success(out);
  }

  /** The body of the scan loop at cursor `pos`: the rules in the source's order, each
      consuming characters and producing at most one token. */
  method ScanOne(input: string, pos: nat) returns (r: Result<Scan, LexError>)
    requires pos < |input|
    ensures r == Step(input, pos)
  {
    var c := input[pos];
    if c == ' ' {
      return Success(Scan(None, pos + 1));
    }
    if c == '\n' {
      return Emit(LineBreak, pos + 1);
    }
    if c == '$' {
      return Emit(AssignmentOperator, pos + 1);
    }
    if c == '@' {
      return Emit(Iterator, pos + 1);
    }
    if c == '?' {
      return Emit(IfStatement, pos + 1);
    }
    r := ScanKeyword(input, pos);
  }

  method ScanKeyword(input: string, pos: nat) returns (r: Result<Scan, LexError>)
    requires pos < |input|
    ensures r == KeywordStep(input, pos)
  {
    var found := LookaheadString(input, pos, "else");
    if found {
      return Emit(ElseExpression, pos + 4);
    }
    found := LookaheadString(input, pos, "is");
    if found {
      return Emit(EqualityCheck, pos + 2);
    }
    found := LookaheadString(input, pos, "contains");
    if found {
      return Emit(ContainsCheck, pos + 8);
    }
    found := LookaheadString(input, pos, "use");
    if found {
      return Emit(ImportStatement, pos + 3);
    }
    found := LookaheadString(input, pos, "as");
    if found {
      return Emit(ImportAsStatement, pos + 2);
    }
    found := LookaheadString(input, pos, "export");
    if found {
      return Emit(ExportStatement, pos + 6);
    }
    r := ScanRun(input, pos);
  }

  method ScanRun(input: string, pos: nat) returns (r: Result<Scan, LexError>)
    requires pos < |input|
    ensures r == RunStep(input, pos)
  {
    var c := input[pos];
    if IsLetter(c) {
      var word := Lookahead(input, pos, Letter, LetterDigitDot);
      if word == "def" {
        return Emit(Definition, pos + |word|);
      }
      return Emit(Literal(word), pos + |word|);
    }
    if IsDigit(c) {
      var digits := Lookahead(input, pos, Digit, DigitDot);
      var token := if '.' in digits then FloatLiteral(digits) else NumberLiteral(digits);
      if digits[|digits| - 1] == '.' {
        return Failure(InvalidCharacterDot);
      }
      return Emit(token, pos + |digits|);
    }
    if c == '\'' {
      var text := Lookahead(input, pos + 1, NotQuote, NotQuote);
      return Emit(StringLiteral(text), pos + 1 + |text| + 1);
    }
    r := ScanSymbol(input, pos);
  }

  method ScanSymbol(input: string, pos: nat) returns (r: Result<Scan, LexError>)
    requires pos < |input|
    ensures r == SymbolStep(input, pos)
  {
    var c := input[pos];
    if c == '[' {
      return Emit(ArrayStart, pos + 1);
    }
    if c == ']' {
      return Emit(ArrayEnd, pos + 1);
    }
    if c == '{' || c == '}' {
      return Emit(DefinitionPoint([c]), pos + 1);
    }
    if c == '(' || c == ')' {
      return Emit(Parenthesis([c]), pos + 1);
    }
    r := ScanComment(input, pos);
  }

  method ScanComment(input: string, pos: nat) returns (r: Result<Scan, LexError>)
    requires pos < |input|
    ensures r == CommentStep(input, pos)
  {
    var c := input[pos];
    if c == '/' {
      if pos + 1 < |input| && input[pos + 1] == '/' {
        var text := Lookahead(input, pos + 2, NotNewline, NotNewline);
        assert text == input[pos + 2..RunEnd(input, pos + 2, NotNewline, NotNewline)];
        return Emit(SingleLineComment(text), pos + 2 + |text|);
      }
      if pos + 1 < |input| && input[pos + 1] == '*' {
        var bucket := Lookahead(input, pos + 2, AnyChar, AnyChar);
        assert bucket == input[pos + 2..RunEnd(input, pos + 2, AnyChar, AnyChar)];
        bucket := PopTwice(bucket);
        return Emit(MultiLineComment(Split(bucket, '\n')), pos + 2 + |bucket| + 2);
      }
    }
    return Failure(UnknownToken(c));
  }
}
