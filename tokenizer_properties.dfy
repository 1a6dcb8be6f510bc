/**
 * What the scan of lib/tokenizer.js promises, stated over the specification
 * `Step` / `LexFrom` of module Tokenizer.
 */
module TokenizerProperties {
  import opened Wrappers
  import opened Tokenizer

  /** Spaces produce no token: from a cursor past which there are only spaces, nothing is emitted. */
  lemma {:induction false} SpacesLexToNothing(input: string, pos: nat)
    requires forall i | pos <= i < |input| :: input[i] == ' '
    ensures LexFrom(input, pos) == Success([])
    decreases |input| - pos
  {
    if pos < |input| {
      SpacesLexToNothing(input, pos + 1);
      assert Step(input, pos) == Success(Scan(None, pos + 1));
      var none: seq<Token> := [];
      assert none + none == none;
    }
  }

  /** The one-character tokens: the character a token of its own stands for, if any. */
  function Punctuation(c: char): Option<Token> {
    if c == '\n' then Some(LineBreak)
    else if c == '$' then Some(AssignmentOperator)
    else if c == '@' then Some(Iterator)
    else if c == '?' then Some(IfStatement)
    else if c == '[' then Some(ArrayStart)
    else if c == ']' then Some(ArrayEnd)
    else if c == '{' || c == '}' then Some(DefinitionPoint([c]))
    else if c == '(' || c == ')' then Some(Parenthesis([c]))
    else None
  }

  /** A punctuation character yields exactly its token and moves the cursor by one. */
  lemma PunctuationStep(input: string, pos: nat)
    requires pos < |input| && Punctuation(input[pos]).Some?
    ensures Step(input, pos) == Emit(Punctuation(input[pos]).value, pos + 1)
  {
    var c := input[pos];
    if c == '[' || c == ']' || c == '{' || c == '}' || c == '(' || c == ')' {
      NonLetterSkipsKeywords(input, pos);
      assert RunStep(input, pos) == SymbolStep(input, pos);
    }
  }

  /** The keywords, in the order the scan tests them. */
  const Keywords: seq<(string, Token)> :=
    [("else", ElseExpression), ("is", EqualityCheck), ("contains", ContainsCheck),
     ("use", ImportStatement), ("as", ImportAsStatement), ("export", ExportStatement)]

  /** The first keyword that is a prefix of the input at `pos` wins, whatever follows it,
      and the cursor moves by exactly its length. */
  lemma KeywordPrefixStep(input: string, pos: nat, k: nat)
    requires pos < |input| && k < |Keywords|
    requires StartsWith(input, pos, Keywords[k].0)
    requires forall j | 0 <= j < k :: !StartsWith(input, pos, Keywords[j].0)
    ensures Step(input, pos) == Emit(Keywords[k].1, pos + |Keywords[k].0|)
  {
    assert input[pos] == Keywords[k].0[0];
    if k > 0 { assert !StartsWith(input, pos, Keywords[0].0); }
    if k > 1 { assert !StartsWith(input, pos, Keywords[1].0); }
    if k > 2 { assert !StartsWith(input, pos, Keywords[2].0); }
    if k > 3 { assert !StartsWith(input, pos, Keywords[3].0); }
    if k > 4 { assert !StartsWith(input, pos, Keywords[4].0); }
  }

  /** No keyword is a prefix of the input at `pos`. */
  predicate NoKeyword(input: string, pos: nat) {
    forall j | 0 <= j < |Keywords| :: !StartsWith(input, pos, Keywords[j].0)
  }

  /** An identifier is the maximal run of a letter followed by letters, digits and dots; its value
      is exactly that text, and the run `def` is the Definition keyword instead. */
  lemma IdentifierStep(input: string, pos: nat)
    requires pos < |input| && IsLetter(input[pos]) && NoKeyword(input, pos)
    ensures Step(input, pos).Success?
    ensures var Scan(t, next) := Step(input, pos).value;
      && pos < next <= |input|
      && (forall i | pos < i < next :: IsLetter(input[i]) || IsDigit(input[i]) || input[i] == '.')
      && (next == |input| || !(IsLetter(input[next]) || IsDigit(input[next]) || input[next] == '.'))
      && t == Some(if input[pos..next] == "def" then Definition else Literal(input[pos..next]))
  {
    assert !StartsWith(input, pos, Keywords[0].0);
    assert !StartsWith(input, pos, Keywords[1].0);
    assert !StartsWith(input, pos, Keywords[2].0);
    assert !StartsWith(input, pos, Keywords[3].0);
    assert !StartsWith(input, pos, Keywords[4].0);
    assert !StartsWith(input, pos, Keywords[5].0);
    var end := RunEnd(input, pos, Letter, LetterDigitDot);
    forall i | pos < i < end
      ensures IsLetter(input[i]) || IsDigit(input[i]) || input[i] == '.'
    {
      assert Matches(ClassAt(i - pos, Letter, LetterDigitDot), input[i]);
    }
  }

  /** Every keyword begins with a letter, so at any other character the scan goes on to the
      run rules. */
  lemma NonLetterSkipsKeywords(input: string, pos: nat)
    requires pos < |input| && !IsLetter(input[pos]) && input[pos] !in {' ', '\n', '$', '@', '?'}
    ensures Step(input, pos) == RunStep(input, pos)
  {
    assert Step(input, pos) == KeywordStep(input, pos);
    FirstCharacterDiffers(input, pos, "else");
    FirstCharacterDiffers(input, pos, "is");
    FirstCharacterDiffers(input, pos, "contains");
    FirstCharacterDiffers(input, pos, "use");
    FirstCharacterDiffers(input, pos, "as");
    FirstCharacterDiffers(input, pos, "export");
  }

  lemma FirstCharacterDiffers(input: string, pos: nat, s: string)
    requires pos < |input| && |s| > 0 && input[pos] != s[0]
    ensures !StartsWith(input, pos, s)
  {
    if pos + |s| <= |input| {
      assert input[pos..pos + |s|][0] == input[pos];
    }
  }

  /** A number is the maximal run of a digit followed by digits and dots; a run ending in a dot
      is an error, and otherwise it is a FloatLiteral exactly when it contains a dot. */
  lemma NumberStep(input: string, pos: nat)
    requires pos < |input| && IsDigit(input[pos])
    ensures var end := RunEnd(input, pos, Digit, DigitDot);
      var digits := input[pos..end];
      && pos < end
      && (forall i | pos <= i < end :: IsDigit(input[i]) || input[i] == '.')
      && (end == |input| || !(IsDigit(input[end]) || input[end] == '.'))
      && (Step(input, pos).Failure? <==> input[end - 1] == '.')
      && (Step(input, pos).Failure? ==> Step(input, pos).error == InvalidCharacterDot)
      && (Step(input, pos).Success? ==>
            Step(input, pos).value == Scan(Some(if '.' in digits then FloatLiteral(digits) else NumberLiteral(digits)), end))
  {
    var end := RunEnd(input, pos, Digit, DigitDot);
    assert Matches(ClassAt(0, Digit, DigitDot), input[pos]);
    forall i | pos <= i < end
      ensures IsDigit(input[i]) || input[i] == '.'
    {
      assert Matches(ClassAt(i - pos, Digit, DigitDot), input[i]);
    }
    NonLetterSkipsKeywords(input, pos);
    var digits := input[pos..end];
    assert Step(input, pos) == RunStep(input, pos);
    assert RunStep(input, pos) == if input[end - 1] == '.' then Failure(InvalidCharacterDot)
      else Emit(if '.' in digits then FloatLiteral(digits) else NumberLiteral(digits), end);
  }

  /** A string's value is exactly the text up to the next quote, without escapes; both quotes
      are consumed, and an unterminated string takes the rest of the input. */
  lemma StringStep(input: string, pos: nat)
    requires pos < |input| && input[pos] == '\''
    ensures Step(input, pos).Success?
    ensures var Scan(t, next) := Step(input, pos).value;
      && t.Some? && t.value.StringLiteral?
      && var v := t.value.value;
      && pos + 1 + |v| <= |input|
      && input[pos + 1..pos + 1 + |v|] == v
      && '\'' !in v
      && next == pos + |v| + 2
      && (pos + 1 + |v| == |input| || input[pos + 1 + |v|] == '\'')
  {
    NonLetterSkipsKeywords(input, pos);
    var end := RunEnd(input, pos + 1, NotQuote, NotQuote);
    var v := input[pos + 1..end];
    forall i | 0 <= i < |v|
      ensures v[i] != '\''
    {
      assert Matches(ClassAt(pos + 1 + i - (pos + 1), NotQuote, NotQuote), input[pos + 1 + i]);
    }
  }

  /** A line comment's value is the text after `//` up to the next newline, which is left
      for the next iteration. */
  lemma LineCommentStep(input: string, pos: nat)
    requires pos + 1 < |input| && input[pos] == '/' && input[pos + 1] == '/'
    ensures Step(input, pos).Success?
    ensures var Scan(t, next) := Step(input, pos).value;
      && pos + 2 <= next <= |input|
      && t == Some(SingleLineComment(input[pos + 2..next]))
      && '\n' !in input[pos + 2..next]
      && (next == |input| || input[next] == '\n')
  {
    var end := RunEnd(input, pos + 2, NotNewline, NotNewline);
    forall i | pos + 2 <= i < end
      ensures input[i] != '\n'
    {
      assert Matches(ClassAt(i - (pos + 2), NotNewline, NotNewline), input[i]);
    }
    assert end == |input| || !Matches(ClassAt(end - (pos + 2), NotNewline, NotNewline), input[end]);
    SlashReachesComments(input, pos);
    assert Step(input, pos) == Emit(SingleLineComment(input[pos + 2..end]), end);
  }

  /** A block comment takes the whole rest of the input: its values are that rest without its
      last two characters, split at newlines. */
  lemma BlockCommentStep(input: string, pos: nat)
    requires pos + 1 < |input| && input[pos] == '/' && input[pos + 1] == '*'
    ensures Step(input, pos).Success?
    ensures var Scan(t, next) := Step(input, pos).value;
      && next >= |input|
      && t.Some? && t.value.MultiLineComment? && |t.value.values| >= 1
      && Join(t.value.values, '\n') == DropLastTwo(input[pos + 2..])
      && forall v | v in t.value.values :: '\n' !in v
  {
    assert RunEnd(input, pos + 2, AnyChar, AnyChar) == |input|;
    assert input[pos + 2..|input|] == input[pos + 2..];
    var text := DropLastTwo(input[pos + 2..]);
    assert CommentStep(input, pos) == Emit(MultiLineComment(Split(text, '\n')), pos + 2 + |text| + 2);
    SlashReachesComments(input, pos);
  }

  /** A `/` passes every rule before the comment rules. */
  lemma SlashReachesComments(input: string, pos: nat)
    requires pos < |input| && input[pos] == '/'
    ensures Step(input, pos) == CommentStep(input, pos)
  {
    NonLetterSkipsKeywords(input, pos);
  }

  /** So a block comment is always the last token of the scan. */
  lemma {:induction false} BlockCommentIsLast(input: string, pos: nat)
    requires pos + 1 < |input| && input[pos] == '/' && input[pos + 1] == '*'
    ensures LexFrom(input, pos).Success?
    ensures |LexFrom(input, pos).value| == 1 && LexFrom(input, pos).value[0].MultiLineComment?
  {
    BlockCommentStep(input, pos);
    var Scan(t, next) := Step(input, pos).value;
    assert LexFrom(input, next) == Success([]);
    assert OptionToSeq(t) + [] == [t.value];
  }

  /** The characters (and, for `/`, the character after it) that some rule accepts. */
  predicate StartsToken(input: string, pos: nat)
    requires pos < |input|
  {
    var c := input[pos];
    c == ' ' || Punctuation(c).Some? || IsLetter(c) || IsDigit(c) || c == '\''
    || (c == '/' && pos + 1 < |input| && (input[pos + 1] == '/' || input[pos + 1] == '*'))
  }

  /** The scan stops with "Unknown token" exactly at a character no rule accepts, and the only
      other error is a number ending in a dot. */
  lemma UnknownTokenStep(input: string, pos: nat)
    requires pos < |input|
    ensures Step(input, pos) == Failure(UnknownToken(input[pos])) <==> !StartsToken(input, pos)
    ensures Step(input, pos).Failure? && StartsToken(input, pos) ==>
              IsDigit(input[pos]) && Step(input, pos).error == InvalidCharacterDot
  {
    if StartsToken(input, pos) && IsLetter(input[pos]) {
      if NoKeyword(input, pos) {
        IdentifierStep(input, pos);
      }
    }
  }

  /** `s` begins with one of the keywords. */
  predicate BeginsWithKeyword(s: string) {
    exists j | 0 <= j < |Keywords| :: StartsWith(s, 0, Keywords[j].0)
  }

  /** The shape of every token the scan can emit.  The parser-only kinds never appear; an
      identifier never begins with a keyword (the keyword rule would have taken it); a number
      never ends in a dot; comments and strings never contain their terminator. */
  predicate Emittable(t: Token) {
    match t
    case KindaCheck => false
    case ExistsCheck => false
    case ReturnStatement => false
    case MakeStatement => false
    case GetStatement => false
    case SetStatement => false
    case Literal(v) =>
      && |v| > 0 && IsLetter(v[0]) && v != "def" && !BeginsWithKeyword(v)
      && forall i | 0 <= i < |v| :: IsLetter(v[i]) || IsDigit(v[i]) || v[i] == '.'
    case NumberLiteral(v) => |v| > 0 && forall i | 0 <= i < |v| :: IsDigit(v[i])
    case FloatLiteral(v) =>
      && |v| > 0 && IsDigit(v[0]) && v[|v| - 1] != '.' && '.' in v
      && forall i | 0 <= i < |v| :: IsDigit(v[i]) || v[i] == '.'
    case StringLiteral(v) => '\'' !in v
    case DefinitionPoint(v) => v == "{" || v == "}"
    case Parenthesis(v) => v == "(" || v == ")"
    case SingleLineComment(v) => '\n' !in v
    case MultiLineComment(vs) => |vs| >= 1 && forall v | v in vs :: '\n' !in v
    case _ => true
  }

  /** A prefix of the input at `pos` that no keyword starts does not begin with a keyword. */
  lemma NoKeywordInPrefix(input: string, pos: nat, end: nat)
    requires pos <= end <= |input| && NoKeyword(input, pos)
    ensures !BeginsWithKeyword(input[pos..end])
  {
    var w := input[pos..end];
    forall j | 0 <= j < |Keywords|
      ensures !StartsWith(w, 0, Keywords[j].0)
    {
      var kw := Keywords[j].0;
      assert !StartsWith(input, pos, kw);
    }
  }

  lemma IdentifierEmittable(input: string, pos: nat)
    requires pos < |input| && IsLetter(input[pos]) && NoKeyword(input, pos)
    ensures Step(input, pos).Success? && Step(input, pos).value.token.Some?
    ensures Emittable(Step(input, pos).value.token.value)
  {
    IdentifierStep(input, pos);
    var next := Step(input, pos).value.next;
    var w := input[pos..next];
    if w != "def" {
      NoKeywordInPrefix(input, pos, next);
      forall i | 0 <= i < |w|
        ensures IsLetter(w[i]) || IsDigit(w[i]) || w[i] == '.'
      {
        assert w[i] == input[pos + i];
      }
    }
  }

  lemma NumberEmittable(input: string, pos: nat)
    requires pos < |input| && IsDigit(input[pos]) && Step(input, pos).Success?
    ensures Step(input, pos).value.token.Some?
    ensures Emittable(Step(input, pos).value.token.value)
  {
    NumberStep(input, pos);
    var end := RunEnd(input, pos, Digit, DigitDot);
    var digits := input[pos..end];
    forall i | 0 <= i < |digits|
      ensures IsDigit(digits[i]) || digits[i] == '.'
    {
      assert digits[i] == input[pos + i];
    }
    if '.' !in digits {
      forall i | 0 <= i < |digits|
        ensures IsDigit(digits[i])
      {
        assert digits[i] in digits;
      }
    }
  }

  /** Whatever token one iteration emits has the shape `Emittable` describes. */
  lemma StepEmittable(input: string, pos: nat)
    requires pos < |input| && Step(input, pos).Success? && Step(input, pos).value.token.Some?
    ensures Emittable(Step(input, pos).value.token.value)
  {
    var c := input[pos];
    if IsLetter(c) {
      if NoKeyword(input, pos) {
        IdentifierEmittable(input, pos);
      } else {
        var j :| 0 <= j < |Keywords| && StartsWith(input, pos, Keywords[j].0);
      }
    } else if IsDigit(c) {
      NumberEmittable(input, pos);
    } else if c == '\'' {
      StringStep(input, pos);
    } else if c == '/' && pos + 1 < |input| && input[pos + 1] == '/' {
      LineCommentStep(input, pos);
    } else if c == '/' && pos + 1 < |input| && input[pos + 1] == '*' {
      BlockCommentStep(input, pos);
    }
  }

  /** The scan emits only tokens of the shape `Emittable` describes. */
  lemma {:induction false} LexFromEmittable(input: string, pos: nat)
    requires LexFrom(input, pos).Success?
    ensures forall t | t in LexFrom(input, pos).value :: Emittable(t)
    decreases |input| - pos
  {
    if pos < |input| {
      var Scan(t, next) := Step(input, pos).value;
      LexFromEmittable(input, next);
      if t.Some? {
        StepEmittable(input, pos);
      }
      assert LexFrom(input, pos).value == OptionToSeq(t) + LexFrom(input, next).value;
    }
  }

  /** Keywords are bare prefixes: `use123` is the import keyword followed by the number 123. */
  lemma KeywordNeedsNoSeparator()
    ensures Lex("use123") == Success([ImportStatement, NumberLiteral("123")])
  {
    var input := "use123";
    assert input[0..4][0] == 'u' && input[0..2][0] == 'u';
    KeywordPrefixStep(input, 0, 3);
    assert RunEnd(input, 3, Digit, DigitDot) == 6;
    NumberStep(input, 3);
    assert input[3..6] == "123";
    assert Step(input, 3) == Emit(NumberLiteral("123"), 6);
    assert LexFrom(input, 6) == Success([]);
    assert LexFrom(input, 3) == Prepend([NumberLiteral("123")], Success([]));
    assert [NumberLiteral("123")] + [] == [NumberLiteral("123")];
    assert LexFrom(input, 0) == Prepend([ImportStatement], LexFrom(input, 3));
    assert [ImportStatement] + [NumberLiteral("123")] == [ImportStatement, NumberLiteral("123")];
  }

  /** A number that ends in a dot stops the scan. */
  lemma TrailingDotFails()
    ensures Lex("x 1.") == Failure(InvalidCharacterDot)
  {
    var input := "x 1.";
    assert RunEnd(input, 2, Digit, DigitDot) == 4;
    assert LexFrom(input, 2) == Failure(InvalidCharacterDot);
    assert LexFrom(input, 1) == Failure(InvalidCharacterDot);
    assert RunEnd(input, 0, Letter, LetterDigitDot) == 1;
  }
}
