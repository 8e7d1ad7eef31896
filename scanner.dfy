/**
 * The lexer (src/main/lox/parser/Scanner.kt). A cursor pair `start`/`current` walks the source;
 * each call of `ScanToken` consumes one lexeme and appends at most one token (or reports one
 * error); `ScanTokens` repeats that to the end and appends the EOF token.
 *
 * The pure functions in the first half say what one step of the scanner does at an offset
 * (`ScanAt`) and what the whole scan produces (`LexTokens`, `LexErrors`); the class below is
 * proved to do exactly that.
 */
module Scanner {
  import opened Wrappers
  import opened Offset
  import opened Tokens
  import opened ErrorReporter

  predicate IsDigit(c: char) { '0' <= c <= '9' }

  predicate IsAlpha(c: char) { ('a' <= c <= 'z') || ('A' <= c <= 'Z') || c == '_' }

  predicate IsAlphaNumeric(c: char) { IsDigit(c) || IsAlpha(c) }

  /** End of the run of digits starting at `i`. */
  function DigitsEnd(s: string, i: nat): (j: nat)
    requires i <= |s|
    ensures i <= j <= |s|
    ensures forall k :: i <= k < j ==> IsDigit(s[k])
    ensures j == |s| || !IsDigit(s[j])
    decreases |s| - i
  {
    if i < |s| && IsDigit(s[i]) then DigitsEnd(s, i + 1) else i
  }

  /** End of the run of letters, digits and underscores starting at `i`. */
  function AlphaNumericEnd(s: string, i: nat): (j: nat)
    requires i <= |s|
    ensures i <= j <= |s|
    ensures forall k :: i <= k < j ==> IsAlphaNumeric(s[k])
    ensures j == |s| || !IsAlphaNumeric(s[j])
    decreases |s| - i
  {
    if i < |s| && IsAlphaNumeric(s[i]) then AlphaNumericEnd(s, i + 1) else i
  }

  /** The first index at or after `i` holding `stop`, or the end of the source. */
  function IndexOfFrom(s: string, i: nat, stop: char): (j: nat)
    requires i <= |s|
    ensures i <= j <= |s|
    ensures forall k :: i <= k < j ==> s[k] != stop
    ensures j == |s| || s[j] == stop
    decreases |s| - i
  {
    if i < |s| && s[i] != stop then IndexOfFrom(s, i + 1, stop) else i
  }

  /** The first index at or after `i` where the closing star-slash starts, or the end of the source. */
  function CommentEnd(s: string, i: nat): (j: nat)
    requires i <= |s|
    ensures i <= j <= |s|
    ensures j < |s| ==> j + 1 < |s| && s[j] == '*' && s[j + 1] == '/'
    ensures forall k :: i <= k < j ==> !(k + 1 < |s| && s[k] == '*' && s[k + 1] == '/')
    decreases |s| - i
  {
    if i >= |s| then |s|
    else if i + 1 < |s| && s[i] == '*' && s[i + 1] == '/' then i
    else CommentEnd(s, i + 1)
  }

  function DigitValue(c: char): nat
  {
    if IsDigit(c) then (c as int - '0' as int) else 0
  }

  /** The value of a string of decimal digits. */
  function NaturalValue(t: string): nat
  {
    if t == [] then 0 else NaturalValue(t[..|t| - 1]) * 10 + DigitValue(t[|t| - 1])
  }

  function Pow10(n: nat): (r: nat)
    ensures r > 0
  {
    if n == 0 then 1 else 10 * Pow10(n - 1)
  }

  /**
   * The exact value of a decimal text `digits` or `digits.digits` (`String.toDouble` in the
   * source, which also rounds it to a double; the rounding is not modelled).
   */
  function DecimalValue(text: string): real
  {
    var dot := IndexOfFrom(text, 0, '.');
    var fraction := if dot < |text| then text[dot + 1..] else "";
    NaturalValue(text[..dot]) as real + NaturalValue(fraction) as real / Pow10(|fraction|) as real
  }

  function ToLower(c: char): char
  {
    if 'A' <= c <= 'Z' then (c as int + 32) as char else c
  }

  function Lowercase(t: string): (r: string)
    ensures |r| == |t|
    ensures forall k :: 0 <= k < |t| ==> r[k] == ToLower(t[k])
  {
    if t == [] then [] else [ToLower(t[0])] + Lowercase(t[1..])
  }

  const Keywords: map<string, TokenType> := map[
    "and" := And, "class" := Class, "else" := Else, "false" := False,
    "for" := For, "fun" := Fun, "if" := If, "nil" := Nil,
    "or" := Or, "print" := Print, "return" := Return, "super" := Super,
    "this" := This, "true" := True, "var" := Var, "while" := While]

  /** Keyword lookup of the lower-cased text, an identifier otherwise. */
  function IdentifierKind(text: string): TokenType
  {
    var key := Lowercase(text);
    if key in Keywords then Keywords[key] else Identifier
  }

  /** What one lexeme turns into. */
  datatype Lexeme = Emit(kind: TokenType, literal: Literal) | Skip | Fail(at: Position, message: string)

  /** One scanner step: the lexeme and the offset just after it. */
  datatype Step = Step(lexeme: Lexeme, next: nat)

  /** The token of a one-character lexeme, if `c` is one. */
  function SingleKind(c: char): Option<TokenType>
  {
    match c
    case '(' => Some(LeftParen)
    case ')' => Some(RightParen)
    case '{' => Some(LeftBrace)
    case '}' => Some(RightBrace)
    case ',' => Some(Comma)
    case '.' => Some(Dot)
    case '-' => Some(Minus)
    case '+' => Some(Plus)
    case ';' => Some(Semicolon)
    case '*' => Some(Star)
    case _ => None
  }

  predicate IsOperatorStart(c: char) { c == '!' || c == '=' || c == '<' || c == '>' }

  /** The one-character token of `!`, `=`, `<`, `>`. */
  function ShortKind(c: char): TokenType
    requires IsOperatorStart(c)
  {
    match c
    case '!' => Bang
    case '=' => Equal
    case '<' => Less
    case '>' => Greater
  }

  /** The same operator followed by `=`. */
  function LongKind(c: char): TokenType
    requires IsOperatorStart(c)
  {
    match c
    case '!' => BangEqual
    case '=' => EqualEqual
    case '<' => LessEqual
    case '>' => GreaterEqual
  }

  predicate IsWhitespace(c: char) { c == ' ' || c == '\r' || c == '\t' || c == '\n' }

  /** A string whose opening quote is at `i`. */
  function StringStep(s: string, i: nat): Step
    requires i < |s|
  {
    var close := IndexOfFrom(s, i + 1, '"');
    if close == |s| then Step(Fail(Point(Offset(|s|)), "Unterminated string."), |s|)
    else Step(Emit(String, StrLit(s[i + 1..close])), close + 1)
  }

  /** The end of a number whose first digit is at `i`: its digits, then a `.` and digits if a digit follows the `.`. */
  function NumberEnd(s: string, i: nat): (j: nat)
    requires i < |s|
    ensures i < j <= |s|
  {
    var whole := DigitsEnd(s, i + 1);
    if whole + 1 < |s| && s[whole] == '.' && IsDigit(s[whole + 1]) then DigitsEnd(s, whole + 1) else whole
  }

  /** A number whose first digit is at `i`. */
  function NumberStep(s: string, i: nat): (st: Step)
    requires i < |s|
  {
    var end := NumberEnd(s, i);
    Step(Emit(Number, NumLit(DecimalValue(s[i..end]))), end)
  }

  /** An identifier or keyword whose first letter is at `i`. */
  function IdentifierStep(s: string, i: nat): Step
    requires i < |s|
  {
    var end := AlphaNumericEnd(s, i + 1);
    Step(Emit(IdentifierKind(s[i..end]), NilLit), end)
  }

  /** A `/`: a line comment, a block comment or the division operator. */
  function SlashStep(s: string, i: nat): Step
    requires i < |s|
  {
    if i + 1 < |s| && s[i + 1] == '/' then
      Step(Skip, IndexOfFrom(s, i + 2, '\n'))
    else if i + 1 < |s| && s[i + 1] == '*' then
      var close := CommentEnd(s, i + 2);
      if close == |s| then Step(Fail(Point(Offset(|s|)), "Unterminated comment."), |s|)
      else Step(Skip, close + 2)
    else
      Step(Emit(Slash, NilLit), i + 1)
  }

  /** What `scanToken` does when the lexeme starts at offset `i`. */
  function ScanAt(s: string, i: nat): (st: Step)
    requires i < |s|
    ensures i < st.next <= |s|
  {
    var c := s[i];
    if SingleKind(c).Some? then Step(Emit(SingleKind(c).value, NilLit), i + 1)
    else if IsOperatorStart(c) then
      if i + 1 < |s| && s[i + 1] == '=' then Step(Emit(LongKind(c), NilLit), i + 2)
      else Step(Emit(ShortKind(c), NilLit), i + 1)
    else if c == '/' then SlashStep(s, i)
    else if IsWhitespace(c) then Step(Skip, i + 1)
    else if c == '"' then StringStep(s, i)
    else if IsDigit(c) then NumberStep(s, i)
    else if IsAlpha(c) then IdentifierStep(s, i)
    else Step(Fail(Position(Offset(i), Offset(i + 1)), "Unexpected character '" + [c] + "'."), i + 1)
  }

  /** The token a step appends: its text is the source from `i` to the step's end. */
  function TokensOf(s: string, i: nat, st: Step): seq<Token>
    requires i <= st.next <= |s|
  {
    if st.lexeme.Emit? then
      [Token(st.lexeme.kind, s[i..st.next], st.lexeme.literal, Position(Offset(i), Offset(st.next)))]
    else []
  }

  /** The error a step reports. */
  function ErrorsOf(st: Step): seq<LoxError>
  {
    if st.lexeme.Fail? then [LoxError(st.lexeme.at, st.lexeme.message)] else []
  }

  /** The tokens of the whole scan from offset `i` on, without the EOF token. */
  function LexTokens(s: string, i: nat): seq<Token>
    requires i <= |s|
    decreases |s| - i
  {
    if i == |s| then [] else TokensOf(s, i, ScanAt(s, i)) + LexTokens(s, ScanAt(s, i).next)
  }

  /** The errors of the whole scan from offset `i` on. */
  function LexErrors(s: string, i: nat): seq<LoxError>
    requires i <= |s|
    decreases |s| - i
  {
    if i == |s| then [] else ErrorsOf(ScanAt(s, i)) + LexErrors(s, ScanAt(s, i).next)
  }

  function EofToken(s: string): Token
  {
    Token(Eof, "", NilLit, Point(Offset(|s|)))
  }

  // ---------------------------------------------------------------------------------------------
  // Properties of the lexical rules

  /** A token of `t`'s list lies inside `[i, |s|]`, spells its span and is not EOF; spans are ordered and do not overlap. */
  ghost predicate WellFormedTokens(s: string, i: nat, t: seq<Token>)
  {
    && (forall k :: 0 <= k < |t| ==>
         && i <= t[k].position.start.offset < t[k].position.end.offset <= |s|
         && t[k].lexeme == s[t[k].position.start.offset..t[k].position.end.offset]
         && t[k].kind != Eof)
    && (forall k :: 0 <= k < |t| - 1 ==> t[k].position.end.offset <= t[k + 1].position.start.offset)
  }

  /** Every token of a scan spells its own span of the source, none is EOF, and they come in source order without overlapping. */
  lemma {:induction false} LexTokensWellFormed(s: string, i: nat)
    requires i <= |s|
    ensures WellFormedTokens(s, i, LexTokens(s, i))
    decreases |s| - i
  {
    if i < |s| {
      var st := ScanAt(s, i);
      LexTokensWellFormed(s, st.next);
      StepWellFormed(s, i);
      WellFormedAppend(s, i, st.next, TokensOf(s, i, st), LexTokens(s, st.next));
    }
  }

  /** The token of one step, if any, spells `s[i..next]` and is not EOF. */
  lemma StepWellFormed(s: string, i: nat)
    requires i < |s|
    ensures WellFormedTokens(s, i, TokensOf(s, i, ScanAt(s, i)))
    ensures forall k :: 0 <= k < |TokensOf(s, i, ScanAt(s, i))| ==>
      TokensOf(s, i, ScanAt(s, i))[k].position.end.offset <= ScanAt(s, i).next
  {
    var st := ScanAt(s, i);
    if st.lexeme.Emit? {
      assert st.lexeme.kind != Eof by {
        assert forall key :: key in Keywords ==> Keywords[key] != Eof;
      }
    }
  }

  /** Two well-formed lists, the first ending before the second starts, make a well-formed list. */
  lemma WellFormedAppend(s: string, i: nat, j: nat, a: seq<Token>, b: seq<Token>)
    requires i <= j
    requires WellFormedTokens(s, i, a) && WellFormedTokens(s, j, b)
    requires forall k :: 0 <= k < |a| ==> a[k].position.end.offset <= j
    ensures WellFormedTokens(s, i, a + b)
  {
  }

  /** The scanner's final list ends with exactly one EOF token, placed at the end of the source. */
  lemma ExactlyOneEof(s: string)
    ensures var t := LexTokens(s, 0) + [EofToken(s)];
      && t[|t| - 1].kind == Eof && t[|t| - 1].position == Point(Offset(|s|))
      && forall k :: 0 <= k < |t| - 1 ==> t[k].kind != Eof
  {
    LexTokensWellFormed(s, 0);
  }

  /** `!`, `=`, `<`, `>` take the following `=` into a two-character token, and only that. */
  lemma TwoCharacterOperators(s: string, i: nat)
    requires i < |s| && IsOperatorStart(s[i])
    ensures ScanAt(s, i).lexeme.Emit?
    ensures (i + 1 < |s| && s[i + 1] == '=') ==> ScanAt(s, i).next == i + 2
    ensures !(i + 1 < |s| && s[i + 1] == '=') ==> ScanAt(s, i).next == i + 1
    ensures var long := i + 1 < |s| && s[i + 1] == '=';
      var kind := ScanAt(s, i).lexeme.kind;
      && (s[i] == '!' ==> kind == if long then BangEqual else Bang)
      && (s[i] == '=' ==> kind == if long then EqualEqual else Equal)
      && (s[i] == '<' ==> kind == if long then LessEqual else Less)
      && (s[i] == '>' ==> kind == if long then GreaterEqual else Greater)
  {
  }

  /**
   * An identifier lexeme is a maximal run of letters, digits and underscores that starts with a
   * letter or underscore, and its kind is the keyword its lower-cased text spells, if any.
   */
  lemma IdentifiersAreMaximal(s: string, i: nat)
    requires i < |s| && IsAlpha(s[i])
    ensures var st := ScanAt(s, i);
      && st.lexeme.Emit? && st.lexeme.literal == NilLit
      && (forall k :: i <= k < st.next ==> IsAlphaNumeric(s[k]))
      && (st.next == |s| || !IsAlphaNumeric(s[st.next]))
      && st.lexeme.kind == (if Lowercase(s[i..st.next]) in Keywords then Keywords[Lowercase(s[i..st.next])] else Identifier)
  {
  }

  const Digits := "0123456789"

  /**
   * The character classes are ASCII ranges (not Kotlin's Unicode-aware `isDigit`/`isLetter`): a
   * digit is one of the ten digits, a letter or digit is below 128, and no character is both a
   * digit and a letter.
   */
  lemma CharacterClasses(c: char)
    ensures IsDigit(c) <==> c in Digits
    ensures IsAlphaNumeric(c) ==> c as int < 128
    ensures !(IsDigit(c) && IsAlpha(c))
  {
    if IsDigit(c) {
      assert Digits[c as int - '0' as int] == c;
    }
  }

  /** Lower-casing changes nothing in a text of lower-case letters. */
  lemma LowercaseKeeps(t: string)
    requires forall i | 0 <= i < |t| :: 'a' <= t[i] <= 'z'
    ensures Lowercase(t) == t
  {
  }

  /** A non-empty run of lower-case ASCII letters (each one `IsAlpha`). */
  predicate LowerWord(k: string)
  {
    |k| > 0 && forall i | 0 <= i < |k| :: 'a' <= k[i] <= 'z'
  }

  /** Every keyword is written in lower-case letters, so it scans as one identifier run. */
  lemma KeywordsLower()
    ensures forall k | k in Keywords :: LowerWord(k)
  {
  }

  /** The lookup of a keyword's own text, lower-cased, finds that keyword. */
  lemma KeywordsFound()
    ensures forall k | k in Keywords :: IdentifierKind(k) == Keywords[k]
  {
    KeywordsLower();
    forall k | k in Keywords
      ensures IdentifierKind(k) == Keywords[k]
    {
      LowercaseKeeps(k);
    }
  }

  /** No keyword is IDENTIFIER or EOF. */
  lemma KeywordsKinds()
    ensures forall k | k in Keywords :: Keywords[k] != Identifier && Keywords[k] != Eof
  {
  }

  /** No two keywords map to the same token kind. */
  lemma KeywordsDistinct()
    ensures forall k, k' | k in Keywords && k' in Keywords && k != k' :: Keywords[k] != Keywords[k']
  {
  }

  /** Keyword lookup ignores case. */
  lemma KeywordsIgnoreCase()
    ensures IdentifierKind("IF") == If
    ensures IdentifierKind("If") == If
    ensures IdentifierKind("iff") == Identifier
  {
    assert Lowercase("IF") == "if";
    assert Lowercase("If") == "if";
    assert Lowercase("iff") == "iff";
  }

  /**
   * A number is a maximal run of digits, optionally followed by a `.` and at least one digit; a `.`
   * that no digit follows is not part of it.
   */
  lemma NumberShape(s: string, i: nat)
    requires i < |s| && IsDigit(s[i])
    ensures ScanAt(s, i).lexeme.Emit? && ScanAt(s, i).lexeme.kind == Number
    ensures ScanAt(s, i).next == |s| || !IsDigit(s[ScanAt(s, i).next])
    ensures exists dot :: NumberSplit(s, i, dot, ScanAt(s, i).next)
  {
    var whole := DigitsEnd(s, i + 1);
    assert NumberSplit(s, i, whole, ScanAt(s, i).next);
  }

  /**
   * `s[i..next]` is the digits `s[i..dot]` (at least one) followed, when `dot < next`, by a `.` and
   * at least one more digit; when `dot == next`, the character at `dot` is not a `.` followed by a digit.
   */
  ghost predicate NumberSplit(s: string, i: nat, dot: nat, next: nat)
  {
    && i < dot <= next <= |s|
    && (forall k :: i <= k < dot ==> IsDigit(s[k]))
    && (dot == |s| || !IsDigit(s[dot]))
    && (dot == next ==> !(dot + 1 < |s| && s[dot] == '.' && IsDigit(s[dot + 1])))
    && (dot < next ==> s[dot] == '.' && dot + 1 < next && forall k :: dot < k < next ==> IsDigit(s[k]))
  }

  /** A terminated string's value is its lexeme without the quotes; an unterminated one reports one error and adds no token. */
  lemma StringLiterals(s: string, i: nat)
    requires i < |s| && s[i] == '"'
    ensures var st := ScanAt(s, i);
      && (st.lexeme.Emit? ==>
            && st.lexeme.kind == String && st.next >= i + 2 && s[st.next - 1] == '"'
            && st.lexeme.literal == StrLit(s[i + 1..st.next - 1])
            && (forall k :: i < k < st.next - 1 ==> s[k] != '"'))
      && (!st.lexeme.Emit? ==>
            && st.lexeme == Fail(Point(Offset(|s|)), "Unterminated string.") && st.next == |s|
            && (forall k :: i < k < |s| ==> s[k] != '"'))
      && |TokensOf(s, i, st)| + |ErrorsOf(st)| == 1
  {
  }

  /** Whitespace and comments emit nothing; a line comment stops in front of the newline that ends it. */
  lemma CommentsAndWhitespaceAreSkipped(s: string, i: nat)
    requires i < |s|
    ensures IsWhitespace(s[i]) ==> ScanAt(s, i) == Step(Skip, i + 1)
    ensures (s[i] == '/' && i + 1 < |s| && s[i + 1] == '/') ==>
      var st := ScanAt(s, i);
      && st.lexeme == Skip
      && (st.next == |s| || s[st.next] == '\n')
      && (forall k :: i <= k < st.next ==> s[k] != '\n')
  {
  }

  /** An unrecognised character reports exactly one error, emits no token and scanning continues right after it. */
  lemma UnexpectedCharacter(s: string, i: nat)
    requires i < |s|
    requires SingleKind(s[i]).None? && !IsOperatorStart(s[i]) && s[i] != '/' && !IsWhitespace(s[i])
    requires s[i] != '"' && !IsDigit(s[i]) && !IsAlpha(s[i])
    ensures ScanAt(s, i).next == i + 1
    ensures TokensOf(s, i, ScanAt(s, i)) == []
    ensures ErrorsOf(ScanAt(s, i)) == [LoxError(Position(Offset(i), Offset(i + 1)), "Unexpected character '" + [s[i]] + "'.")]
  {
  }

  /** Scanning one more lexeme moves it from the rest of the scan onto what was appended. */
  lemma LexStep(s: string, i: nat, t: seq<Token>, e: seq<LoxError>)
    requires i < |s|
    ensures t + LexTokens(s, i) == (t + TokensOf(s, i, ScanAt(s, i))) + LexTokens(s, ScanAt(s, i).next)
    ensures e + LexErrors(s, i) == (e + ErrorsOf(ScanAt(s, i))) + LexErrors(s, ScanAt(s, i).next)
  {
    var step := ScanAt(s, i);
    var tokens, rest := TokensOf(s, i, step), LexTokens(s, step.next);
    assert LexTokens(s, i) == tokens + rest;
    assert t + (tokens + rest) == (t + tokens) + rest;
    var errors, later := ErrorsOf(step), LexErrors(s, step.next);
    assert LexErrors(s, i) == errors + later;
    assert e + (errors + later) == (e + errors) + later;
  }

  // ---------------------------------------------------------------------------------------------
  // The scanner object

  class Scanner {
    const source: string
    const reporter: ErrorReporter
    var tokens: seq<Token>
    var start: Offset
    var current: Offset

    /** The cursors stay inside the source, `start` never after `current`. */
    ghost predicate Valid()
      reads this
    {
      0 <= start.offset <= current.offset <= |source|
    }

    constructor(source: string, reporter: ErrorReporter)
      ensures Valid() && this.source == source && this.reporter == reporter
      ensures tokens == [] && start == StartLocation() && current == StartLocation()
    {
      this.source := source;
      this.reporter := reporter;
      tokens := [];
      start := StartLocation();
      current := StartLocation();
    }

    /** `scanTokens`: scan every lexeme from the cursor on, then append the EOF token at the end. */
    method ScanTokens() returns (result: seq<Token>)
      requires Valid()
      modifies this, reporter
      ensures Valid() && current.offset == |source|
      ensures tokens == old(tokens) + LexTokens(source, old(current.offset)) + [EofToken(source)]
      ensures result == tokens
      ensures reporter.parseErrors == old(reporter.parseErrors) + LexErrors(source, old(current.offset))
      ensures reporter.runtimeErrors == old(reporter.runtimeErrors)
    {
      while !IsAtEnd()
        invariant Valid()
        invariant old(tokens) + LexTokens(source, old(current.offset))
               == tokens + LexTokens(source, current.offset)
        invariant old(reporter.parseErrors) + LexErrors(source, old(current.offset))
               == reporter.parseErrors + LexErrors(source, current.offset)
        invariant reporter.runtimeErrors == old(reporter.runtimeErrors)
        decreases |source| - current.offset
      {
        start := current;
        ghost var i := current.offset;
        ghost var before, errorsBefore := tokens, reporter.parseErrors;
        ScanToken();
        LexStep(source, i, before, errorsBefore);
      }
      tokens := tokens + [Token(Eof, "", NilLit, Point(current))];
      return tokens;
    }

    predicate IsAtEnd()
      reads this
    {
      current.offset >= |source|
    }

    /** `scanToken`: consume one lexeme starting at `start` and record what it turns into. */
    method ScanToken()
      requires Valid() && start == current && !IsAtEnd()
      modifies this, reporter
      ensures Valid() && start == old(start)
      ensures current.offset == ScanAt(source, start.offset).next
      ensures tokens == old(tokens) + TokensOf(source, start.offset, ScanAt(source, start.offset))
      ensures reporter.parseErrors == old(reporter.parseErrors) + ErrorsOf(ScanAt(source, start.offset))
      ensures reporter.runtimeErrors == old(reporter.runtimeErrors)
    {
      var c := Advance();
      if SingleKind(c).Some? {
        AddToken(SingleKind(c).value, NilLit);
      } else if IsOperatorStart(c) {
        var long := Match('=');
        AddToken(if long then LongKind(c) else ShortKind(c), NilLit);
      } else if c == '/' {
        SlashOrComment();
      } else if IsWhitespace(c) {
      } else if c == '"' {
        StringLiteral();
      } else if IsDigit(c) {
        NumberLiteral();
      } else if IsAlpha(c) {
        IdentifierOrKeyword();
      } else {
        reporter.ParseError(Pos(), "Unexpected character '" + [c] + "'.");
      }
    }

    /** The rest of the `'/'` case of `scanToken`: comments or the `/` operator. */
    method SlashOrComment()
      requires Valid() && current.offset == start.offset + 1 <= |source| && source[start.offset] == '/'
      modifies this, reporter
      ensures Valid() && start == old(start)
      ensures current.offset == SlashStep(source, start.offset).next
      ensures tokens == old(tokens) + TokensOf(source, start.offset, SlashStep(source, start.offset))
      ensures reporter.parseErrors == old(reporter.parseErrors) + ErrorsOf(SlashStep(source, start.offset))
      ensures reporter.runtimeErrors == old(reporter.runtimeErrors)
    {
      var lineComment := Match('/');
      if lineComment {
        SkipUntil('\n');
        assert SlashStep(source, start.offset) == Step(Skip, current.offset);
        return;
      }
      var blockComment := Match('*');
      if blockComment {
        BlockComment();
        return;
      }
      assert SlashStep(source, start.offset) == Step(Emit(Slash, NilLit), current.offset);
      AddToken(Slash, NilLit);
    }

    /**
     * The block-comment case of `scanToken`, once its opening slash-star is consumed: skip past the
     * closing star-slash. The source's loop has no end-of-input test and reads past the end of an
     * unterminated comment; here that case stops at the end and reports an error instead.
     */
    method BlockComment()
      requires Valid() && current.offset == start.offset + 2 <= |source|
      requires source[start.offset] == '/' && source[start.offset + 1] == '*'
      modifies this`current, reporter`parseErrors
      ensures Valid() && start == old(start)
      ensures current.offset == SlashStep(source, start.offset).next
      ensures TokensOf(source, start.offset, SlashStep(source, start.offset)) == []
      ensures reporter.parseErrors == old(reporter.parseErrors) + ErrorsOf(SlashStep(source, start.offset))
    {
      SkipToCommentEnd();
      if IsAtEnd() {
        assert SlashStep(source, start.offset) == Step(Fail(Point(current), "Unterminated comment."), |source|);
        reporter.ParseError(Point(current), "Unterminated comment.");
        return;
      }
      assert SlashStep(source, start.offset) == Step(Skip, current.offset + 2);
      var _ := Advance();
      var _ := Advance();
    }

    /** `string()`: the rest of a string literal whose opening quote was consumed. */
    method StringLiteral()
      requires Valid() && current.offset == start.offset + 1 <= |source| && source[start.offset] == '"'
      modifies this, reporter
      ensures Valid() && start == old(start)
      ensures current.offset == StringStep(source, start.offset).next
      ensures tokens == old(tokens) + TokensOf(source, start.offset, StringStep(source, start.offset))
      ensures reporter.parseErrors == old(reporter.parseErrors) + ErrorsOf(StringStep(source, start.offset))
      ensures reporter.runtimeErrors == old(reporter.runtimeErrors)
    {
      SkipUntil('"');
      if IsAtEnd() {
        reporter.ParseError(Point(current), "Unterminated string.");
        return;
      }
      var _ := Advance();
      var value := AtSpan(source, Pos());
      assert value[1..|value| - 1] == source[start.offset + 1..current.offset - 1];
      AddToken(String, StrLit(value[1..|value| - 1]));
    }

    /** `number()`: the rest of a number literal whose first digit was consumed. */
    method NumberLiteral()
      requires Valid() && current.offset == start.offset + 1 <= |source| && IsDigit(source[start.offset])
      modifies this
      ensures Valid() && start == old(start)
      ensures current.offset == NumberStep(source, start.offset).next
      ensures tokens == old(tokens) + TokensOf(source, start.offset, NumberStep(source, start.offset))
    {
      SkipDigits();
      if Peek() == '.' && IsDigit(PeekNext()) {
        var _ := Advance();
        SkipDigits();
      }
      assert NumberEnd(source, start.offset) == current.offset;
      var text := AtSpan(source, Pos());
      assert text == source[start.offset..current.offset];
      AddToken(Number, NumLit(DecimalValue(text)));
    }

    /** The `while (peek() != stop && !isAtEnd()) advance()` loops of comments and strings: move to the next `stop` or the end. */
    method SkipUntil(stop: char)
      requires Valid()
      modifies this`current
      ensures Valid() && old(current.offset) <= current.offset
      ensures current.offset == IndexOfFrom(source, old(current.offset), stop)
    {
      while Peek() != stop && !IsAtEnd()
        invariant Valid() && old(current.offset) <= current.offset
        invariant IndexOfFrom(source, current.offset, stop) == IndexOfFrom(source, old(current.offset), stop)
        decreases |source| - current.offset
      {
        var _ := Advance();
      }
    }

    /** The block comment's loop: move to the next star-slash or the end. */
    method SkipToCommentEnd()
      requires Valid()
      modifies this`current
      ensures Valid() && old(current.offset) <= current.offset
      ensures current.offset == CommentEnd(source, old(current.offset))
    {
      while !IsAtEnd() && !(Peek() == '*' && PeekNext() == '/')
        invariant Valid() && old(current.offset) <= current.offset
        invariant CommentEnd(source, current.offset) == CommentEnd(source, old(current.offset))
        decreases |source| - current.offset
      {
        var _ := Advance();
      }
    }

    /** The `while (isDigit(peek())) advance()` loop of `number()`: move past the run of digits at the cursor. */
    method SkipDigits()
      requires Valid()
      modifies this`current
      ensures Valid() && old(current.offset) <= current.offset
      ensures current.offset == DigitsEnd(source, old(current.offset))
    {
      while IsDigit(Peek())
        invariant Valid() && old(current.offset) <= current.offset
        invariant DigitsEnd(source, current.offset) == DigitsEnd(source, old(current.offset))
        decreases |source| - current.offset
      {
        var _ := Advance();
      }
    }

    /** `identifier()`: the rest of an identifier or keyword whose first letter was consumed. */
    method IdentifierOrKeyword()
      requires Valid() && current.offset == start.offset + 1 <= |source| && IsAlpha(source[start.offset])
      modifies this
      ensures Valid() && start == old(start)
      ensures current.offset == IdentifierStep(source, start.offset).next
      ensures tokens == old(tokens) + TokensOf(source, start.offset, IdentifierStep(source, start.offset))
    {
      while IsAlphaNumeric(Peek())
        invariant Valid() && start == old(start) && start.offset + 1 <= current.offset
        invariant AlphaNumericEnd(source, current.offset) == AlphaNumericEnd(source, start.offset + 1)
        invariant tokens == old(tokens)
        decreases |source| - current.offset
      {
        var _ := Advance();
      }
      var text := AtSpan(source, Pos());
      var key := Lowercase(text);
      AddToken(if key in Keywords then Keywords[key] else Identifier, NilLit);
    }

    /** `advance`: consume the character at the cursor (Kotlin throws at the end of the source). */
    method Advance() returns (c: char)
      requires Valid() && !IsAtEnd()
      modifies this`current
      ensures Valid()
      ensures c == source[old(current.offset)] && current.offset == old(current.offset) + 1
    {
      c := At(source, current);
      current := current.Increment(At(source, current));
    }

    /** `match`: consume the character at the cursor only if it is `expected`; false at the end. */
    method Match(expected: char) returns (matched: bool)
      requires Valid()
      modifies this`current
      ensures Valid()
      ensures matched <==> old(current.offset) < |source| && source[old(current.offset)] == expected
      ensures current.offset == if matched then old(current.offset) + 1 else old(current.offset)
    {
      if IsAtEnd() {
        return false;
      }
      if At(source, current) != expected {
        return false;
      }
      var _ := Advance();
      return true;
    }

    /** `peek`: the character at the cursor, or NUL at the end. */
    function Peek(): (c: char)
      requires Valid()
      reads this
      ensures current.offset < |source| ==> c == source[current.offset]
      ensures current.offset == |source| ==> c == '\0'
    {
      if IsAtEnd() then '\0' else At(source, current)
    }

    /** `peekNext`: the character after the cursor, or NUL past the end. */
    function PeekNext(): (c: char)
      requires Valid()
      reads this
      ensures current.offset + 1 < |source| ==> c == source[current.offset + 1]
      ensures current.offset + 1 >= |source| ==> c == '\0'
    {
      if current.offset + 1 >= |source| then '\0' else source[current.offset + 1]
    }

    /** `addToken`: append a token spelling the text from `start` to `current`. */
    method AddToken(kind: TokenType, literal: Literal)
      requires Valid()
      modifies this`tokens
      ensures tokens == old(tokens) + [Token(kind, source[start.offset..current.offset], literal, Pos())]
    {
      var text := AtSpan(source, Pos());
      tokens := tokens + [Token(kind, text, literal, Pos())];
    }

    /** `pos`: the span from `start` to `current`. */
    function Pos(): (p: Position)
      reads this
      ensures p.start == start && p.end == current
    {
      Position(start, current)
    }
  }
}
