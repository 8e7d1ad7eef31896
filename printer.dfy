/**
 * The two expression printers (src/main/lox/ast/Printer.kt): `prettyPrint`, which renders an
 * expression close to source syntax, and `print`, which renders it as an s-expression.
 *
 * How a number literal and a token are turned into text (Kotlin's `Double.toString` and the
 * `toString` of `Token`, which is not part of this model) are parameters.
 */
module Printer {
  import opened Tokens
  import opened Ast

  /** The text of a literal value: `null` is "nil", a number goes through `number`. */
  function LiteralText(lit: Literal, number: real -> string): string
  {
    match lit
    case NilLit => "nil"
    case BoolLit(b) => if b then "true" else "false"
    case NumLit(n) => number(n)
    case StrLit(s) => s
  }

  /** Both printers' `when` has no branch for lambdas. */
  predicate Printable(e: Expr)
    decreases e
  {
    match e
    case BinaryOp(l, _, r) => Printable(l) && Printable(r)
    case UnaryOp(_, r) => Printable(r)
    case Grouping(inner) => Printable(inner)
    case Literal(_) => true
    case Variable(_) => true
    case Assign(_, v) => Printable(v)
    case Call(callee, args) => Printable(callee) && forall i | 0 <= i < |args| :: Printable(args[i])
    case Logical(l, _, r) => Printable(l) && Printable(r)
    case Lambda(_) => false
  }

  predicate AllPrintable(es: seq<Expr>)
  {
    forall i | 0 <= i < |es| :: Printable(es[i])
  }

  /** `joinToString(sep)`: the parts with `sep` between consecutive ones. */
  function Join(sep: string, parts: seq<string>): string
  {
    if |parts| == 0 then ""
    else if |parts| == 1 then parts[0]
    else parts[0] + sep + Join(sep, parts[1..])
  }

  /** `prettyPrint`, as written: a call's argument list is opened and never closed. */
  function PrettyPrintAsWritten(e: Expr, number: real -> string, token: Token -> string): string
    requires Printable(e)
    decreases e
  {
    match e
    case BinaryOp(l, op, r) =>
      PrettyPrintAsWritten(l, number, token) + " " + op.lexeme + " " + PrettyPrintAsWritten(r, number, token)
    case Call(callee, args) =>
      PrettyPrintAsWritten(callee, number, token) + "(" + Join(",", PrettyPrintAllAsWritten(args, number, token))
    case Grouping(inner) => "(" + PrettyPrintAsWritten(inner, number, token) + ")"
    case Literal(lit) => LiteralText(lit, number)
    case UnaryOp(op, r) => op.lexeme + PrettyPrintAsWritten(r, number, token)
    case Variable(name) => name.lexeme
    case Assign(name, v) => token(name) + " = " + PrettyPrintAsWritten(v, number, token)
    case Logical(l, op, r) =>
      PrettyPrintAsWritten(l, number, token) + " " + op.lexeme + " " + PrettyPrintAsWritten(r, number, token)
  }

  function PrettyPrintAllAsWritten(es: seq<Expr>, number: real -> string, token: Token -> string): (r: seq<string>)
    requires AllPrintable(es)
    ensures |r| == |es|
    decreases es
  {
    if es == [] then []
    else [PrettyPrintAsWritten(es[0], number, token)] + PrettyPrintAllAsWritten(es[1..], number, token)
  }

  /** `prettyPrint` with the argument list of a call closed by ")". */
  function PrettyPrint(e: Expr, number: real -> string, token: Token -> string): string
    requires Printable(e)
    decreases e
  {
    match e
    case BinaryOp(l, op, r) => PrettyPrint(l, number, token) + " " + op.lexeme + " " + PrettyPrint(r, number, token)
    case Call(callee, args) =>
      PrettyPrint(callee, number, token) + "(" + Join(",", PrettyPrintAll(args, number, token)) + ")"
    case Grouping(inner) => "(" + PrettyPrint(inner, number, token) + ")"
    case Literal(lit) => LiteralText(lit, number)
    case UnaryOp(op, r) => op.lexeme + PrettyPrint(r, number, token)
    case Variable(name) => name.lexeme
    case Assign(name, v) => token(name) + " = " + PrettyPrint(v, number, token)
    case Logical(l, op, r) => PrettyPrint(l, number, token) + " " + op.lexeme + " " + PrettyPrint(r, number, token)
  }

  function PrettyPrintAll(es: seq<Expr>, number: real -> string, token: Token -> string): (r: seq<string>)
    requires AllPrintable(es)
    ensures |r| == |es|
    decreases es
  {
    if es == [] then [] else [PrettyPrint(es[0], number, token)] + PrettyPrintAll(es[1..], number, token)
  }

  /** `sexp`: the head and the rendered operands, space-separated, in parentheses. */
  function Sexp(head: string, operands: seq<string>): string
  {
    "(" + head + " " + Join(" ", operands) + ")"
  }

  /** `print`: the s-expression form. */
  function Print(e: Expr, number: real -> string, token: Token -> string): string
    requires Printable(e)
    decreases e
  {
    match e
    case BinaryOp(l, op, r) => Sexp(op.lexeme, [Print(l, number, token), Print(r, number, token)])
    case Call(callee, args) => Sexp(Print(callee, number, token), PrintAll(args, number, token))
    case Grouping(inner) => Sexp("group", [Print(inner, number, token)])
    case Literal(lit) => LiteralText(lit, number)
    case UnaryOp(op, r) => Sexp(op.lexeme, [Print(r, number, token)])
    case Variable(name) => name.lexeme
    case Assign(name, v) => Sexp("assign-" + token(name), [Print(v, number, token)])
    case Logical(l, op, r) => Sexp(op.lexeme, [Print(l, number, token), Print(r, number, token)])
  }

  function PrintAll(es: seq<Expr>, number: real -> string, token: Token -> string): (r: seq<string>)
    requires AllPrintable(es)
    ensures |r| == |es|
    decreases es
  {
    if es == [] then [] else [Print(es[0], number, token)] + PrintAll(es[1..], number, token)
  }

  // ---------------------------------------------------------------------------------------------
  // Parenthesis balance.

  /** Opening minus closing parentheses in `s`. */
  function Balance(s: string): int
  {
    if s == [] then 0
    else Balance(s[..|s| - 1]) + (if s[|s| - 1] == '(' then 1 else if s[|s| - 1] == ')' then -1 else 0)
  }

  lemma {:induction false} BalanceAppend(a: string, b: string)
    ensures Balance(a + b) == Balance(a) + Balance(b)
    decreases |b|
  {
    if b == [] {
      assert a + b == a;
    } else {
      assert (a + b)[..|a + b| - 1] == a + b[..|b| - 1];
      BalanceAppend(a, b[..|b| - 1]);
    }
  }

  /** A text without parentheses is balanced. */
  lemma {:induction false} NoParensBalanced(s: string)
    requires forall i | 0 <= i < |s| :: s[i] != '(' && s[i] != ')'
    ensures Balance(s) == 0
    decreases |s|
  {
    if s != [] {
      NoParensBalanced(s[..|s| - 1]);
    }
  }

  /** The fixed texts the printers insert around their operands. */
  lemma SeparatorsBalanced()
    ensures Balance(" ") == 0 && Balance(",") == 0 && Balance(" = ") == 0
    ensures Balance("group") == 0 && Balance("assign-") == 0
    ensures Balance("(") == 1 && Balance(")") == -1
  {
    NoParensBalanced(" ");
    NoParensBalanced(",");
    NoParensBalanced(" = ");
    NoParensBalanced("group");
    NoParensBalanced("assign-");
    assert "("[..0] == [] && ")"[..0] == [];
  }

  /** `left op right` with single spaces, as both infix forms of `prettyPrint` render. */
  lemma InfixBalanced(left: string, op: string, right: string)
    requires Balance(left) == 0 && Balance(op) == 0 && Balance(right) == 0
    ensures Balance(left + " " + op + " " + right) == 0
  {
    SeparatorsBalanced();
    BalanceOf5(left, " ", op, " ", right);
  }

  /** Every text the printers copy from the tree (lexemes, strings, numbers, tokens) is balanced. */
  predicate AtomsBalanced(e: Expr, number: real -> string, token: Token -> string)
    decreases e
  {
    match e
    case BinaryOp(l, op, r) => Balance(op.lexeme) == 0 && AtomsBalanced(l, number, token) && AtomsBalanced(r, number, token)
    case UnaryOp(op, r) => Balance(op.lexeme) == 0 && AtomsBalanced(r, number, token)
    case Grouping(inner) => AtomsBalanced(inner, number, token)
    case Literal(lit) => Balance(LiteralText(lit, number)) == 0
    case Variable(name) => Balance(name.lexeme) == 0
    case Assign(name, v) => Balance(token(name)) == 0 && AtomsBalanced(v, number, token)
    case Call(callee, args) =>
      AtomsBalanced(callee, number, token) && forall i | 0 <= i < |args| :: AtomsBalanced(args[i], number, token)
    case Logical(l, op, r) => Balance(op.lexeme) == 0 && AtomsBalanced(l, number, token) && AtomsBalanced(r, number, token)
    case Lambda(_) => true
  }

  lemma {:induction false} JoinBalanced(sep: string, parts: seq<string>)
    requires Balance(sep) == 0
    requires forall i | 0 <= i < |parts| :: Balance(parts[i]) == 0
    ensures Balance(Join(sep, parts)) == 0
    decreases |parts|
  {
    if |parts| > 1 {
      JoinBalanced(sep, parts[1..]);
      BalanceAppend(parts[0], sep);
      BalanceAppend(parts[0] + sep, Join(sep, parts[1..]));
    }
  }

  /** Balance of `a + b + c + ...` from the parts, for the shapes the printers build. */
  lemma BalanceOf3(a: string, b: string, c: string)
    ensures Balance(a + b + c) == Balance(a) + Balance(b) + Balance(c)
  {
    BalanceAppend(a, b);
    BalanceAppend(a + b, c);
  }

  lemma BalanceOf4(a: string, b: string, c: string, d: string)
    ensures Balance(a + b + c + d) == Balance(a) + Balance(b) + Balance(c) + Balance(d)
  {
    BalanceOf3(a, b, c);
    BalanceAppend(a + b + c, d);
  }

  lemma BalanceOf5(a: string, b: string, c: string, d: string, f: string)
    ensures Balance(a + b + c + d + f) == Balance(a) + Balance(b) + Balance(c) + Balance(d) + Balance(f)
  {
    BalanceOf4(a, b, c, d);
    BalanceAppend(a + b + c + d, f);
  }

  /** With balanced atoms, the corrected `prettyPrint` closes every parenthesis it opens. */
  lemma {:induction false} PrettyPrintBalanced(e: Expr, number: real -> string, token: Token -> string)
    requires Printable(e) && AtomsBalanced(e, number, token)
    ensures Balance(PrettyPrint(e, number, token)) == 0
    decreases e, 1
  {
    SeparatorsBalanced();
    match e {
      case BinaryOp(l, op, r) =>
        PrettyPrintBalanced(l, number, token);
        PrettyPrintBalanced(r, number, token);
        InfixBalanced(PrettyPrint(l, number, token), op.lexeme, PrettyPrint(r, number, token));
      case Logical(l, op, r) =>
        PrettyPrintBalanced(l, number, token);
        PrettyPrintBalanced(r, number, token);
        InfixBalanced(PrettyPrint(l, number, token), op.lexeme, PrettyPrint(r, number, token));
      case Call(callee, args) =>
        PrettyPrintBalanced(callee, number, token);
        PrettyPrintAllBalanced(args, number, token);
        var joined := Join(",", PrettyPrintAll(args, number, token));
        JoinBalanced(",", PrettyPrintAll(args, number, token));
        BalanceOf4(PrettyPrint(callee, number, token), "(", joined, ")");
      case Grouping(inner) =>
        PrettyPrintBalanced(inner, number, token);
        BalanceOf3("(", PrettyPrint(inner, number, token), ")");
      case Literal(_) =>
      case UnaryOp(op, r) =>
        PrettyPrintBalanced(r, number, token);
        BalanceAppend(op.lexeme, PrettyPrint(r, number, token));
      case Variable(_) =>
      case Assign(name, v) =>
        PrettyPrintBalanced(v, number, token);
        BalanceOf3(token(name), " = ", PrettyPrint(v, number, token));
    }
  }

  lemma {:induction false} PrettyPrintAllBalanced(es: seq<Expr>, number: real -> string, token: Token -> string)
    requires AllPrintable(es) && forall i | 0 <= i < |es| :: AtomsBalanced(es[i], number, token)
    ensures forall i | 0 <= i < |es| :: Balance(PrettyPrintAll(es, number, token)[i]) == 0
    decreases es, 0
  {
    if es != [] {
      PrettyPrintBalanced(es[0], number, token);
      PrettyPrintAllBalanced(es[1..], number, token);
      forall i | 0 <= i < |es|
        ensures Balance(PrettyPrintAll(es, number, token)[i]) == 0
      {
        if i > 0 {
          assert PrettyPrintAll(es, number, token)[i] == PrettyPrintAll(es[1..], number, token)[i - 1];
        }
      }
    }
  }

  /** As written, a call with no arguments, `f()`, pretty-prints with one more "(" than ")". */
  lemma PrettyPrintAsWrittenLeavesCallOpen(f: Token, number: real -> string, token: Token -> string)
    requires f.lexeme == "f"
    ensures PrettyPrintAsWritten(Call(Variable(f), []), number, token) == "f("
    ensures Balance(PrettyPrintAsWritten(Call(Variable(f), []), number, token)) == 1
  {
    assert PrettyPrintAllAsWritten([], number, token) == [];
    assert "f("[..1] == "f" && "f"[..0] == [];
  }

  /** The written and the corrected `prettyPrint` agree on every expression without a call. */
  lemma {:induction false} PrettyPrintAgreesWithoutCalls(e: Expr, number: real -> string, token: Token -> string)
    requires Printable(e) && CallFree(e)
    ensures PrettyPrintAsWritten(e, number, token) == PrettyPrint(e, number, token)
    decreases e
  {
    match e {
      case BinaryOp(l, _, r) =>
        PrettyPrintAgreesWithoutCalls(l, number, token);
        PrettyPrintAgreesWithoutCalls(r, number, token);
      case Logical(l, _, r) =>
        PrettyPrintAgreesWithoutCalls(l, number, token);
        PrettyPrintAgreesWithoutCalls(r, number, token);
      case Grouping(inner) =>
        PrettyPrintAgreesWithoutCalls(inner, number, token);
      case UnaryOp(_, r) =>
        PrettyPrintAgreesWithoutCalls(r, number, token);
      case Assign(_, v) =>
        PrettyPrintAgreesWithoutCalls(v, number, token);
      case Literal(_) =>
      case Variable(_) =>
    }
  }

  predicate CallFree(e: Expr)
    decreases e
  {
    match e
    case BinaryOp(l, _, r) => CallFree(l) && CallFree(r)
    case UnaryOp(_, r) => CallFree(r)
    case Grouping(inner) => CallFree(inner)
    case Assign(_, v) => CallFree(v)
    case Logical(l, _, r) => CallFree(l) && CallFree(r)
    case Call(_, _) => false
    case _ => true
  }

  /** With balanced atoms, `print` closes every parenthesis it opens. */
  lemma {:induction false} PrintBalanced(e: Expr, number: real -> string, token: Token -> string)
    requires Printable(e) && AtomsBalanced(e, number, token)
    ensures Balance(Print(e, number, token)) == 0
    decreases e, 1
  {
    match e {
      case BinaryOp(l, op, r) =>
        PrintBalanced(l, number, token);
        PrintBalanced(r, number, token);
        SexpBalanced(op.lexeme, [Print(l, number, token), Print(r, number, token)]);
      case Logical(l, op, r) =>
        PrintBalanced(l, number, token);
        PrintBalanced(r, number, token);
        SexpBalanced(op.lexeme, [Print(l, number, token), Print(r, number, token)]);
      case Call(callee, args) =>
        PrintBalanced(callee, number, token);
        PrintAllBalanced(args, number, token);
        SexpBalanced(Print(callee, number, token), PrintAll(args, number, token));
      case Grouping(inner) =>
        PrintBalanced(inner, number, token);
        SeparatorsBalanced();
        SexpBalanced("group", [Print(inner, number, token)]);
      case Literal(_) =>
      case UnaryOp(op, r) =>
        PrintBalanced(r, number, token);
        SexpBalanced(op.lexeme, [Print(r, number, token)]);
      case Variable(_) =>
      case Assign(name, v) =>
        PrintBalanced(v, number, token);
        SeparatorsBalanced();
        BalanceAppend("assign-", token(name));
        SexpBalanced("assign-" + token(name), [Print(v, number, token)]);
    }
  }

  lemma {:induction false} PrintAllBalanced(es: seq<Expr>, number: real -> string, token: Token -> string)
    requires AllPrintable(es) && forall i | 0 <= i < |es| :: AtomsBalanced(es[i], number, token)
    ensures forall i | 0 <= i < |es| :: Balance(PrintAll(es, number, token)[i]) == 0
    decreases es, 0
  {
    if es != [] {
      PrintBalanced(es[0], number, token);
      PrintAllBalanced(es[1..], number, token);
      forall i | 0 <= i < |es|
        ensures Balance(PrintAll(es, number, token)[i]) == 0
      {
        if i > 0 {
          assert PrintAll(es, number, token)[i] == PrintAll(es[1..], number, token)[i - 1];
        }
      }
    }
  }

  lemma SexpBalanced(head: string, operands: seq<string>)
    requires Balance(head) == 0
    requires forall i | 0 <= i < |operands| :: Balance(operands[i]) == 0
    ensures Balance(Sexp(head, operands)) == 0
  {
    SeparatorsBalanced();
    JoinBalanced(" ", operands);
    BalanceOf5("(", head, " ", Join(" ", operands), ")");
  }

  /**
   * The forms both printers share: a grouping is its operand in parentheses (headed "group" in
   * `print`), `nil` is "nil" and a variable is its name.
   */
  lemma SharedForms(inner: Expr, name: Token, number: real -> string, token: Token -> string)
    requires Printable(inner)
    ensures PrettyPrint(Grouping(inner), number, token) == "(" + PrettyPrint(inner, number, token) + ")"
    ensures Print(Grouping(inner), number, token) == "(group " + Print(inner, number, token) + ")"
    ensures PrettyPrint(Literal(NilLit), number, token) == Print(Literal(NilLit), number, token) == "nil"
    ensures PrettyPrint(Variable(name), number, token) == Print(Variable(name), number, token) == name.lexeme
  {
    var p := Print(inner, number, token);
    assert Join(" ", [p]) == p;
    assert Print(Grouping(inner), number, token) == "(" + "group" + " " + p + ")";
    assert "(" + "group" + " " == "(group ";
  }

  /** In `print`, every expression other than a literal or a variable is one parenthesized form. */
  lemma PrintCompoundIsParenthesized(e: Expr, number: real -> string, token: Token -> string)
    requires Printable(e) && !e.Literal? && !e.Variable?
    ensures var s := Print(e, number, token); |s| >= 2 && s[0] == '(' && s[|s| - 1] == ')'
  {
  }

  /** The number of calls in an expression, its arguments' calls included. */
  function Calls(e: Expr): nat
    decreases e
  {
    match e
    case BinaryOp(l, _, r) => Calls(l) + Calls(r)
    case UnaryOp(_, r) => Calls(r)
    case Grouping(inner) => Calls(inner)
    case Assign(_, v) => Calls(v)
    case Logical(l, _, r) => Calls(l) + Calls(r)
    case Call(callee, args) => 1 + Calls(callee) + CallsAll(args)
    case _ => 0
  }

  function CallsAll(es: seq<Expr>): nat
    decreases es
  {
    if es == [] then 0 else Calls(es[0]) + CallsAll(es[1..])
  }

  /** The balances of the parts, added up. */
  function BalanceAll(parts: seq<string>): int
  {
    if parts == [] then 0 else Balance(parts[0]) + BalanceAll(parts[1..])
  }

  /** Joining with a balanced separator adds up the parts' balances. */
  lemma {:induction false} JoinBalanceSum(sep: string, parts: seq<string>)
    requires Balance(sep) == 0
    ensures Balance(Join(sep, parts)) == BalanceAll(parts)
    decreases |parts|
  {
    if |parts| == 1 {
      assert parts[1..] == [];
    } else if |parts| > 1 {
      JoinBalanceSum(sep, parts[1..]);
      BalanceAppend(parts[0], sep);
      BalanceAppend(parts[0] + sep, Join(sep, parts[1..]));
    }
  }

  /**
   * With balanced atoms, the as-written `prettyPrint` leaves exactly one parenthesis open per
   * call, so its output is balanced exactly when the expression has no call.
   */
  lemma {:induction false} PrettyPrintAsWrittenOpensPerCall(e: Expr, number: real -> string, token: Token -> string)
    requires Printable(e) && AtomsBalanced(e, number, token)
    ensures Balance(PrettyPrintAsWritten(e, number, token)) == Calls(e)
    ensures Balance(PrettyPrintAsWritten(e, number, token)) == 0 <==> CallFree(e)
    decreases e, 1
  {
    SeparatorsBalanced();
    CallsIffNotCallFree(e);
    match e {
      case BinaryOp(l, op, r) =>
        PrettyPrintAsWrittenOpensPerCall(l, number, token);
        PrettyPrintAsWrittenOpensPerCall(r, number, token);
        BalanceOf5(PrettyPrintAsWritten(l, number, token), " ", op.lexeme, " ", PrettyPrintAsWritten(r, number, token));
      case Logical(l, op, r) =>
        PrettyPrintAsWrittenOpensPerCall(l, number, token);
        PrettyPrintAsWrittenOpensPerCall(r, number, token);
        BalanceOf5(PrettyPrintAsWritten(l, number, token), " ", op.lexeme, " ", PrettyPrintAsWritten(r, number, token));
      case Call(callee, args) =>
        PrettyPrintAsWrittenOpensPerCall(callee, number, token);
        PrettyPrintAllAsWrittenOpensPerCall(args, number, token);
        var joined := Join(",", PrettyPrintAllAsWritten(args, number, token));
        JoinBalanceSum(",", PrettyPrintAllAsWritten(args, number, token));
        BalanceOf3(PrettyPrintAsWritten(callee, number, token), "(", joined);
      case Grouping(inner) =>
        PrettyPrintAsWrittenOpensPerCall(inner, number, token);
        BalanceOf3("(", PrettyPrintAsWritten(inner, number, token), ")");
      case Literal(_) =>
      case UnaryOp(op, r) =>
        PrettyPrintAsWrittenOpensPerCall(r, number, token);
        BalanceAppend(op.lexeme, PrettyPrintAsWritten(r, number, token));
      case Variable(_) =>
      case Assign(name, v) =>
        PrettyPrintAsWrittenOpensPerCall(v, number, token);
        BalanceOf3(token(name), " = ", PrettyPrintAsWritten(v, number, token));
    }
  }

  lemma {:induction false} PrettyPrintAllAsWrittenOpensPerCall(es: seq<Expr>, number: real -> string, token: Token -> string)
    requires AllPrintable(es) && forall i | 0 <= i < |es| :: AtomsBalanced(es[i], number, token)
    ensures BalanceAll(PrettyPrintAllAsWritten(es, number, token)) == CallsAll(es)
    decreases es, 0
  {
    if es != [] {
      var rest := PrettyPrintAllAsWritten(es[1..], number, token);
      assert forall i | 0 <= i < |es| - 1 :: es[1..][i] == es[i + 1];
      PrettyPrintAsWrittenOpensPerCall(es[0], number, token);
      PrettyPrintAllAsWrittenOpensPerCall(es[1..], number, token);
      assert ([PrettyPrintAsWritten(es[0], number, token)] + rest)[1..] == rest;
    }
  }

  lemma {:induction false} CallsIffNotCallFree(e: Expr)
    ensures Calls(e) == 0 <==> CallFree(e)
    decreases e
  {
    match e {
      case BinaryOp(l, _, r) => CallsIffNotCallFree(l); CallsIffNotCallFree(r);
      case Logical(l, _, r) => CallsIffNotCallFree(l); CallsIffNotCallFree(r);
      case UnaryOp(_, r) => CallsIffNotCallFree(r);
      case Grouping(inner) => CallsIffNotCallFree(inner);
      case Assign(_, v) => CallsIffNotCallFree(v);
      case _ =>
    }
  }

  /** The total length of the parts. */
  function Length(parts: seq<string>): nat
  {
    if parts == [] then 0 else |parts[0]| + Length(parts[1..])
  }

  /** `joinToString`: the parts' characters plus one separator between each consecutive pair. */
  lemma {:induction false} JoinLength(sep: string, parts: seq<string>)
    requires |parts| > 0
    ensures |Join(sep, parts)| == Length(parts) + |sep| * (|parts| - 1)
    decreases |parts|
  {
    if |parts| == 1 {
      assert parts[1..] == [];
    } else {
      JoinLength(sep, parts[1..]);
    }
  }

  /** Both printers render a literal the same way, as its value's text. */
  lemma LiteralsPrintAlike(lit: Literal, number: real -> string, token: Token -> string)
    ensures PrettyPrint(Literal(lit), number, token) == Print(Literal(lit), number, token)
    ensures PrettyPrint(Literal(lit), number, token) ==
      match lit
      case NilLit => "nil"
      case BoolLit(b) => if b then "true" else "false"
      case NumLit(n) => number(n)
      case StrLit(t) => t
  {
  }
}
