/**
 * The expression parser (src/main/lox/parser/Parser.kt): recursive descent over a token list with
 * a cursor `current`. Each binary precedence level is the `binaryOp` loop over the next tighter
 * level; unary operators are right-recursive; a primary is a literal or a parenthesised
 * expression. A syntax error is reported to the error sink once and then unwinds the descent
 * (Kotlin's `ParseError` exception; here the `Err` case of a `Result`).
 *
 * The grammar itself is the ghost predicate `Derives`; every parsing method is proved to return a
 * derivation of exactly the tokens it consumed.
 */
module Parser {
  import opened Wrappers
  import opened Offset
  import opened Tokens
  import opened Ast
  import opened ErrorReporter

  /** The exception that unwinds a failed parse; it carries nothing. */
  datatype ParseError = ParseError

  /** The operator tokens of the binary levels, loosest first: equality, comparison, term, factor. */
  function Operators(level: nat): (ops: seq<TokenType>)
    requires level <= 3
    ensures Eof !in ops && LeftParen !in ops && RightParen !in ops
  {
    if level == 0 then [BangEqual, EqualEqual]
    else if level == 1 then [Greater, GreaterEqual, Less, LessEqual]
    else if level == 2 then [Minus, Plus]
    else [Star, Slash]
  }

  /** The operators of binary level `level` and of every tighter binary level. */
  function OperatorsFrom(level: nat): (ops: seq<TokenType>)
    requires level <= 4
    decreases 4 - level
  {
    if level == 4 then [] else Operators(level) + OperatorsFrom(level + 1)
  }

  const UnaryOperators: seq<TokenType> := [Bang, Minus]

  /** The grammar level `unary` is 4 and `primary` is 5; the binary levels are 0 to 3. */
  const UnaryLevel: nat := 4
  const PrimaryLevel: nat := 5

  /** The statement keywords `synchronize` stops in front of. */
  const StatementStarts: set<TokenType> :=
    {TokenType.Class, Fun, TokenType.Var, For, TokenType.If, TokenType.While, TokenType.Print, TokenType.Return}

  /** `synchronize` steps over the token at `k`: it is not EOF, not a statement keyword, and no `;` precedes it. */
  predicate PassedOver(toks: seq<Token>, k: nat)
  {
    0 < k < |toks| && toks[k].kind != Eof && toks[k - 1].kind != Semicolon && toks[k].kind !in StatementStarts
  }

  /** The value of the literal expression a token stands for in `primary`, if it stands for one. */
  function LiteralOf(t: Token): Option<Literal>
  {
    match t.kind
    case False => Some(BoolLit(false))
    case True => Some(BoolLit(true))
    case Nil => Some(NilLit)
    case Number => Some(t.literal)
    case String => Some(t.literal)
    case _ => None
  }

  /** How many tokens the expression spells; the forms this parser never builds count as one. */
  function Size(e: Expr): (n: nat)
    ensures n >= 1
  {
    match e
    case BinaryOp(left, _, right) => Size(left) + 1 + Size(right)
    case UnaryOp(_, right) => 1 + Size(right)
    case Grouping(inner) => Size(inner) + 2
    case _ => 1
  }

  /** The binary level whose operator `kind` is, or 4 when it is no binary operator. */
  function OperatorLevel(kind: TokenType): (level: nat)
    ensures level <= 4
    ensures forall k :: 0 <= k <= 3 ==> (kind in Operators(k) <==> k == level)
  {
    if kind in Operators(0) then 0
    else if kind in Operators(1) then 1
    else if kind in Operators(2) then 2
    else if kind in Operators(3) then 3
    else 4
  }

  /**
   * `e` is a parse tree of the tokens `toks[i..j]` at grammar level `level` (or any tighter one):
   *   binary level L:  L-expression operator(L) (L+1)-expression  |  (L+1)-expression
   *   unary:           ("!" | "-") unary  |  primary
   *   primary:         false | true | nil | NUMBER | STRING  |  "(" expression ")"
   * A binary node belongs to the level of its operator, so it can stand at that level or a looser one.
   */
  ghost predicate Derives(e: Expr, level: nat, toks: seq<Token>, i: nat, j: nat)
    requires level <= PrimaryLevel && i <= j <= |toks|
  {
    && j - i == Size(e)
    && match e
       case BinaryOp(left, operator, right) =>
         var k, m := OperatorLevel(operator.kind), i + Size(left);
         && level <= k <= 3 && toks[m] == operator
         && Derives(left, k, toks, i, m)
         && Derives(right, k + 1, toks, m + 1, j)
       case UnaryOp(operator, right) =>
         && level <= UnaryLevel && operator.kind in UnaryOperators && toks[i] == operator
         && Derives(right, UnaryLevel, toks, i + 1, j)
       case Literal(value) => LiteralOf(toks[i]) == Some(value)
       case Grouping(inner) =>
         && toks[i].kind == LeftParen && toks[j - 1].kind == RightParen
         && Derives(inner, 0, toks, i + 1, j - 1)
       case _ => false
  }

  /** The messages `primary` reports. */
  const PrimaryMessages: set<string> := {"Expected expression.", "Expected ')' after expression."}

  /** `after` is `before` with one more error, reported at `t` with one of `primary`'s messages. */
  ghost predicate OneErrorAt(before: seq<LoxError>, after: seq<LoxError>, t: Token)
  {
    && |after| == |before| + 1 && after == before + [after[|before|]]
    && after[|before|].position == t.position && after[|before|].message in PrimaryMessages
  }

  class Parser {
    const tokens: seq<Token>
    const reporter: ErrorReporter
    var current: nat

    /** The token list ends with EOF and the cursor is on a token. */
    ghost predicate Valid()
      reads this
    {
      |tokens| > 0 && tokens[|tokens| - 1].kind == Eof && current < |tokens|
    }

    /** The scanner's output always ends with its EOF token, which `peek` relies on. */
    constructor(tokens: seq<Token>, reporter: ErrorReporter)
      requires |tokens| > 0 && tokens[|tokens| - 1].kind == Eof
      ensures Valid() && this.tokens == tokens && this.reporter == reporter && current == 0
    {
      this.tokens := tokens;
      this.reporter := reporter;
      current := 0;
    }

    predicate IsAtEnd()
      requires Valid()
      reads this
    {
      Peek().kind == Eof
    }

    function Peek(): (t: Token)
      requires Valid()
      reads this
      ensures t == tokens[current]
    {
      tokens[current]
    }

    /** `previous`: the token before the cursor (Kotlin throws at the first token). */
    function Previous(): (t: Token)
      requires Valid() && current > 0
      reads this
      ensures t == tokens[current - 1]
    {
      tokens[current - 1]
    }

    /** `check`: the current token has kind `kind`, and it is never EOF. */
    predicate Check(kind: TokenType)
      requires Valid()
      reads this
      ensures Check(kind) <==> tokens[current].kind != Eof && tokens[current].kind == kind
    {
      if IsAtEnd() then false else Peek().kind == kind
    }

    /** `advance`: step over the current token unless it is EOF, and return the token before the cursor. */
    method Advance() returns (t: Token)
      requires Valid() && (current > 0 || !IsAtEnd())
      modifies this`current
      ensures Valid()
      ensures current == if old(tokens[current].kind) == Eof then old(current) else old(current) + 1
      ensures current > 0 && t == tokens[current - 1]
    {
      if !IsAtEnd() {
        current := current + 1;
      }
      return Previous();
    }

    /** `match`: advance over the current token exactly when its kind is one of `kinds`. */
    method Match(kinds: seq<TokenType>) returns (matched: bool)
      requires Valid()
      modifies this`current
      ensures Valid()
      ensures matched <==> old(tokens[current].kind) != Eof && old(tokens[current].kind) in kinds
      ensures current == if matched then old(current) + 1 else old(current)
    {
      for i := 0 to |kinds|
        invariant current == old(current)
        invariant forall j :: 0 <= j < i ==> !Check(kinds[j])
      {
        if Check(kinds[i]) {
          var _ := Advance();
          return true;
        }
      }
      return false;
    }

    /**
     * `consume`: on a token of kind `kind`, step over it and return it; otherwise report `message`
     * at the current token and fail with the cursor where it was.
     */
    method Consume(kind: TokenType, message: string) returns (r: Result<Token, ParseError>)
      requires Valid()
      modifies this`current, reporter`parseErrors
      ensures Valid()
      ensures r.Ok? <==> old(Check(kind))
      ensures r.Ok? ==> r.value == old(tokens[current]) && current == old(current) + 1
      ensures r.Ok? ==> reporter.parseErrors == old(reporter.parseErrors)
      ensures r.Err? ==> current == old(current)
      ensures r.Err? ==> reporter.parseErrors == old(reporter.parseErrors) + [LoxError(tokens[current].position, message)]
    {
      if Check(kind) {
        var t := Advance();
        return Ok(t);
      }
      reporter.ParseError(Peek().position, message);
      return Err(ParseError);
    }

    /**
     * `synchronize`: skip tokens up to the next statement boundary: just after a `;`, just before a
     * statement keyword, or at EOF. Each token passed over is neither EOF nor a statement keyword,
     * and none but the last before the stop is a `;`.
     */
    method Synchronize()
      requires Valid() && (current > 0 || !IsAtEnd())
      modifies this`current
      ensures Valid() && current > 0
      ensures old(tokens[current].kind) != Eof ==> current > old(current)
      ensures tokens[current].kind == Eof || tokens[current - 1].kind == Semicolon
           || tokens[current].kind in StatementStarts
      ensures forall k :: old(current) < k < current ==> PassedOver(tokens, k)
    {
      var _ := Advance();
      while !IsAtEnd()
        invariant Valid() && current > 0 && old(current) <= current
        invariant old(tokens[current].kind) != Eof ==> current > old(current)
        invariant forall k :: old(current) < k < current ==> PassedOver(tokens, k)
        decreases |tokens| - current
      {
        if Previous().kind == Semicolon {
          return;
        }
        if Peek().kind in StatementStarts {
          return;
        }
        var _ := Advance();
      }
    }

    /**
     * `parse`: parse one expression, turning a syntax error into `None`, then report any tokens left
     * before EOF. A result is a parse tree of exactly the tokens consumed.
     */
    method Parse() returns (result: Option<Expr>)
      requires Valid()
      modifies this`current, reporter`parseErrors
      ensures Valid() && old(current) <= current
      ensures result.Some? ==> Derives(result.value, 0, tokens, old(current), current)
      ensures var errors := |old(reporter.parseErrors)| + (if result.None? then 1 else 0);
        && |reporter.parseErrors| == errors + (if tokens[current].kind != Eof then 1 else 0)
        && reporter.parseErrors[..|old(reporter.parseErrors)|] == old(reporter.parseErrors)
        && (result.None? ==> reporter.parseErrors[|old(reporter.parseErrors)|].message in PrimaryMessages)
        && (tokens[current].kind != Eof ==>
              reporter.parseErrors[errors] == LoxError(tokens[current].position, "Unknown tokens at the end of the input."))
    {
      var r := Expression();
      result := if r.Ok? then Some(r.value) else None;
      if Peek().kind != Eof {
        reporter.ParseError(Peek().position, "Unknown tokens at the end of the input.");
      }
    }

    /** `expression`: the loosest level, equality. */
    method Expression() returns (r: Result<Expr, ParseError>)
      requires Valid()
      modifies this`current, reporter`parseErrors
      ensures Valid() && old(current) <= current
      ensures r.Ok? ==> Derives(r.value, 0, tokens, old(current), current)
      ensures r.Ok? ==> reporter.parseErrors == old(reporter.parseErrors)
      ensures r.Ok? ==> tokens[current].kind !in OperatorsFrom(0)
      ensures r.Err? ==> OneErrorAt(old(reporter.parseErrors), reporter.parseErrors, tokens[current])
      decreases |tokens| - current, 30
    {
      r := BinaryLevel(0);
    }

    /**
     * `binaryOp(higher, operators)`: one operand of the next tighter level, then, while an operator
     * of this level follows, fold it and one more operand into a left-nested tree. On success the
     * next token is an operator of no level from this one up.
     */
    method BinaryLevel(level: nat) returns (r: Result<Expr, ParseError>)
      requires Valid() && level <= 3
      modifies this`current, reporter`parseErrors
      ensures Valid() && old(current) <= current
      ensures r.Ok? ==> Derives(r.value, level, tokens, old(current), current)
      ensures r.Ok? ==> reporter.parseErrors == old(reporter.parseErrors)
      ensures r.Ok? ==> tokens[current].kind !in OperatorsFrom(level)
      ensures r.Err? ==> OneErrorAt(old(reporter.parseErrors), reporter.parseErrors, tokens[current])
      decreases |tokens| - current, 27 - 6 * level
    {
      var first := Higher(level);
      if first.Err? {
        return Err(ParseError);
      }
      var expr := first.value;
      ghost var start := old(current);
      while true
        invariant Valid() && start <= current
        invariant reporter.parseErrors == old(reporter.parseErrors)
        invariant Derives(expr, level, tokens, start, current)
        invariant tokens[current].kind !in OperatorsFrom(level + 1)
        decreases |tokens| - current
      {
        var step := ExtendLevel(level, expr, start);
        if step.Err? {
          return Err(ParseError);
        }
        if step.value.None? {
          return Ok(expr);
        }
        expr := step.value.value;
      }
    }

    /**
     * One iteration of the `binaryOp` loop: when an operator of this level follows, fold it and one
     * more operand into the tree (`Some`); otherwise leave the cursor in front of a token that is
     * no operator of this level (`None`).
     */
    method ExtendLevel(level: nat, expr: Expr, ghost start: nat) returns (r: Result<Option<Expr>, ParseError>)
      requires Valid() && level <= 3 && start <= current
      requires Derives(expr, level, tokens, start, current)
      modifies this`current, reporter`parseErrors
      ensures Valid() && old(current) <= current
      ensures r.Ok? ==> reporter.parseErrors == old(reporter.parseErrors)
      ensures r.Ok? && r.value.None? ==> current == old(current) && tokens[current].kind !in Operators(level)
      ensures r.Ok? && r.value.Some? ==>
        && current > old(current)
        && Derives(r.value.value, level, tokens, start, current)
        && tokens[current].kind !in OperatorsFrom(level + 1)
      ensures r.Err? ==> OneErrorAt(old(reporter.parseErrors), reporter.parseErrors, tokens[current])
      decreases |tokens| - current, 26 - 6 * level
    {
      ghost var mid := current;
      var more := Match(Operators(level));
      if !more {
        assert Eof !in Operators(level);
        return Ok(None);
      }
      var operator := Previous();
      assert operator == tokens[mid] && OperatorLevel(operator.kind) == level;
      var right := Higher(level);
      if right.Err? {
        return Err(ParseError);
      }
      BinaryStep(expr, operator, right.value, level, tokens, start, mid, current);
      return Ok(Some(BinaryOp(expr, operator, right.value)));
    }

    /** The operand level of `binaryOp`: the next binary level, or `unary` below factor. */
    method Higher(level: nat) returns (r: Result<Expr, ParseError>)
      requires Valid() && level <= 3
      modifies this`current, reporter`parseErrors
      ensures Valid() && old(current) <= current
      ensures r.Ok? ==> Derives(r.value, level + 1, tokens, old(current), current)
      ensures r.Ok? ==> reporter.parseErrors == old(reporter.parseErrors)
      ensures r.Ok? ==> tokens[current].kind !in OperatorsFrom(level + 1)
      ensures r.Err? ==> OneErrorAt(old(reporter.parseErrors), reporter.parseErrors, tokens[current])
      decreases |tokens| - current, 25 - 6 * level
    {
      if level < 3 {
        r := BinaryLevel(level + 1);
      } else {
        r := Unary();
      }
    }

    /** `unary`: prefix `!` and `-` nest to the right over a primary. */
    method Unary() returns (r: Result<Expr, ParseError>)
      requires Valid()
      modifies this`current, reporter`parseErrors
      ensures Valid() && old(current) <= current
      ensures r.Ok? ==> Derives(r.value, UnaryLevel, tokens, old(current), current)
      ensures r.Ok? ==> reporter.parseErrors == old(reporter.parseErrors)
      ensures r.Err? ==> OneErrorAt(old(reporter.parseErrors), reporter.parseErrors, tokens[current])
      decreases |tokens| - current, 1
    {
      var isUnary := Match(UnaryOperators);
      if isUnary {
        var operator := Previous();
        var right :- Unary();
        return Ok(UnaryOp(operator, right));
      }
      r := Primary();
      if r.Ok? {
        assert Derives(r.value, UnaryLevel, tokens, old(current), current);
      }
    }

    /** The literal cases of `primary`: `false`, `true`, `nil`, then a number or string token's value. */
    method LiteralPrimary() returns (r: Option<Expr>)
      requires Valid()
      modifies this`current
      ensures Valid()
      ensures r.Some? <==> old(tokens[current].kind) != Eof && LiteralOf(old(tokens[current])).Some?
      ensures r.Some? ==> current == old(current) + 1 && r.value == Literal(LiteralOf(tokens[old(current)]).value)
      ensures r.None? ==> current == old(current)
    {
      var isFalse := Match([False]);
      if isFalse {
        return Some(Literal(BoolLit(false)));
      }
      var isTrue := Match([True]);
      if isTrue {
        return Some(Literal(BoolLit(true)));
      }
      var isNil := Match([Nil]);
      if isNil {
        return Some(Literal(NilLit));
      }
      var isValue := Match([Number, String]);
      if isValue {
        return Some(Literal(Previous().literal));
      }
      return None;
    }

    /**
     * `primary`: `false`, `true`, `nil`, a number or a string becomes a literal; `(` starts a group
     * that needs its `)`; anything else reports "Expected expression." at the current token.
     */
    method Primary() returns (r: Result<Expr, ParseError>)
      requires Valid()
      modifies this`current, reporter`parseErrors
      ensures Valid() && old(current) <= current
      ensures r.Ok? ==> Derives(r.value, PrimaryLevel, tokens, old(current), current)
      ensures r.Ok? ==> reporter.parseErrors == old(reporter.parseErrors)
      ensures r.Err? ==> OneErrorAt(old(reporter.parseErrors), reporter.parseErrors, tokens[current])
      ensures r.Err? && current == old(current) ==> reporter.parseErrors[|old(reporter.parseErrors)|].message == "Expected expression."
      decreases |tokens| - current, 0
    {
      var literal := LiteralPrimary();
      if literal.Some? {
        return Ok(literal.value);
      }
      var isGroup := Match([LeftParen]);
      if isGroup {
        r := Group();
        return;
      }
      reporter.ParseError(Peek().position, "Expected expression.");
      return Err(ParseError);
    }

    /** The group case of `primary`, once its `(` is consumed: an expression, then the closing `)`. */
    method Group() returns (r: Result<Expr, ParseError>)
      requires Valid() && current > 0 && tokens[current - 1].kind == LeftParen
      modifies this`current, reporter`parseErrors
      ensures Valid() && old(current) <= current
      ensures r.Ok? ==> Derives(r.value, PrimaryLevel, tokens, old(current) - 1, current)
      ensures r.Ok? ==> reporter.parseErrors == old(reporter.parseErrors)
      ensures r.Err? ==> OneErrorAt(old(reporter.parseErrors), reporter.parseErrors, tokens[current])
      decreases |tokens| - current, 31
    {
      var inner :- Expression();
      var closing := Consume(RightParen, "Expected ')' after expression.");
      if closing.Err? {
        return Err(ParseError);
      }
      return Ok(Grouping(inner));
    }
  }

  // ---------------------------------------------------------------------------------------------
  // Properties of the grammar

  /** One iteration of the `binaryOp` loop: the tree so far, this level's operator and one more operand. */
  lemma BinaryStep(left: Expr, operator: Token, right: Expr, level: nat, toks: seq<Token>, i: nat, m: nat, j: nat)
    requires level <= 3 && i <= m < j <= |toks| && toks[m] == operator && OperatorLevel(operator.kind) == level
    requires Derives(left, level, toks, i, m) && Derives(right, level + 1, toks, m + 1, j)
    ensures Derives(BinaryOp(left, operator, right), level, toks, i, j)
  {
  }
}

module ParserProperties {
  import opened Wrappers
  import opened Tokens
  import opened Ast
  import opened Parser

  /** A single literal token has exactly one parse tree: its literal. */
  lemma OneLiteral(e: Expr, level: nat, toks: seq<Token>, i: nat)
    requires level <= PrimaryLevel && i < |toks| && LiteralOf(toks[i]).Some?
    requires Derives(e, level, toks, i, i + 1)
    ensures e == Literal(LiteralOf(toks[i]).value)
  {
  }

  /**
   * Two literals around an operator: a binary node if the operator belongs to `level` or a
   * tighter level, and no parse tree at all if it belongs to a looser one.
   */
  lemma OneOperator(e: Expr, level: nat, toks: seq<Token>, i: nat)
    requires level <= PrimaryLevel && i + 3 <= |toks|
    requires LiteralOf(toks[i]).Some? && LiteralOf(toks[i + 2]).Some?
    requires Derives(e, level, toks, i, i + 3)
    ensures OperatorLevel(toks[i + 1].kind) <= 3 && level <= OperatorLevel(toks[i + 1].kind)
    ensures e == BinaryOp(Literal(LiteralOf(toks[i]).value), toks[i + 1], Literal(LiteralOf(toks[i + 2]).value))
  {
    match e
    case BinaryOp(left, operator, right) =>
      OneLiteral(left, OperatorLevel(operator.kind), toks, i);
      OneLiteral(right, OperatorLevel(operator.kind) + 1, toks, i + 2);
    case UnaryOp(operator, _) =>
      assert false;
    case Grouping(_) =>
      assert false;
  }

  /**
   * Precedence and associativity together: in `a op1 b op2 c` over literals, the first operator
   * groups first exactly when it binds at least as tightly as the second (so `1 - 2 - 3` is
   * `(1 - 2) - 3` and `1 + 2 * 3` is `1 + (2 * 3)`); any parse tree of the five tokens is that one.
   */
  lemma TwoOperators(e: Expr, toks: seq<Token>, i: nat)
    requires i + 5 <= |toks|
    requires LiteralOf(toks[i]).Some? && LiteralOf(toks[i + 2]).Some? && LiteralOf(toks[i + 4]).Some?
    requires Derives(e, 0, toks, i, i + 5)
    ensures var a, b, c := Literal(LiteralOf(toks[i]).value), Literal(LiteralOf(toks[i + 2]).value), Literal(LiteralOf(toks[i + 4]).value);
      e == if OperatorLevel(toks[i + 3].kind) <= OperatorLevel(toks[i + 1].kind)
           then BinaryOp(BinaryOp(a, toks[i + 1], b), toks[i + 3], c)
           else BinaryOp(a, toks[i + 1], BinaryOp(b, toks[i + 3], c))
  {
    match e
    case BinaryOp(left, operator, right) =>
      var k := OperatorLevel(operator.kind);
      if Size(left) == 1 {
        OneLiteral(left, k, toks, i);
        OneOperator(right, k + 1, toks, i + 2);
      } else {
        assert Size(left) == 3 by {
          assert Size(left) != 2 && Size(left) != 4;
        }
        OneOperator(left, k, toks, i);
        OneLiteral(right, k + 1, toks, i + 4);
      }
    case UnaryOp(operator, _) =>
      assert false;
    case Grouping(_) =>
      assert false;
  }

  /** Prefix operators nest to the right: `!!x` is `!(!x)`. */
  lemma UnaryNestsRight(e: Expr, toks: seq<Token>, i: nat)
    requires i + 3 <= |toks| && toks[i].kind == Bang && toks[i + 1].kind == Bang && LiteralOf(toks[i + 2]).Some?
    requires Derives(e, 0, toks, i, i + 3)
    ensures e == UnaryOp(toks[i], UnaryOp(toks[i + 1], Literal(LiteralOf(toks[i + 2]).value)))
  {
    match e
    case UnaryOp(_, right) =>
      match right {
        case UnaryOp(_, inner) =>
          OneLiteral(inner, UnaryLevel, toks, i + 2);
        case BinaryOp(_, _, _) =>
          assert false;
        case Grouping(_) =>
          assert false;
      }
    case BinaryOp(left, _, _) =>
      assert false;
    case Grouping(_) =>
      assert false;
  }
}
