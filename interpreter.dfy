/**
 * The tree-walking evaluator (src/main/lox/interpreter/): runtime values, the chain of
 * environments, the interpreter over the statement and expression forms it handles, and the
 * callable functions and classes.
 *
 * The environment chain lives on the heap as linked `Environment` objects. `Frames()` reads it as
 * a sequence of maps, innermost first, and `EvalIn`/`ExecIn` give the meaning of expressions and
 * statements on such a sequence; the interpreter's methods are proved to agree with them.
 */
module Interpreter {
  import opened Wrappers
  import opened Tokens
  import opened Ast
  import opened ErrorReporter

  /** The runtime values: Kotlin's `null`, Boolean, Double, String and the callables and instances. */
  datatype Value =
    | NilV
    | BoolV(b: bool)
    | NumV(n: real)
    | StrV(s: string)
    | FunctionV(f: LoxFunction)
    | ClassV(c: LoxClass)
    | InstanceV(i: LoxInstance)

  /** One environment's variables. */
  type Frame = map<string, Value>

  /** The value a literal expression denotes. */
  function ValueOf(lit: Literal): Value
  {
    match lit
    case NilLit => NilV
    case BoolLit(b) => BoolV(b)
    case NumLit(n) => NumV(n)
    case StrLit(s) => StrV(s)
  }

  /** `isTruthy`: only `nil` and `false` are falsey. */
  function IsTruthy(v: Value): (r: bool)
    ensures !r <==> v == NilV || v == BoolV(false)
  {
    match v
    case BoolV(b) => b
    case NilV => false
    case _ => true
  }

  /**
   * `isEqual`: `nil` equals only `nil`; other values compare with Kotlin's `==`, which for the
   * model's values is structural on numbers, strings and booleans and by identity on objects.
   */
  function IsEqual(a: Value, b: Value): (r: bool)
    ensures r <==> a == b
    ensures a == NilV ==> (r <==> b == NilV)
  {
    if a == NilV && b == NilV then true
    else if a == NilV then false
    else a == b
  }

  const OperandNumberMessage := "Operand must be a number."
  const OperandsNumbersMessage := "Operands must be numbers"
  const PlusOperandsMessage := "Operands must be two numbers or two strings."

  function UndefinedMessage(name: string): string
  {
    "Undefined variable '" + name + "'."
  }

  /** `RuntimeError(token, message)` is a `LoxError` at the token's position. */
  function RuntimeError(token: Token, message: string): LoxError
  {
    LoxError(token.position, message)
  }

  /** The binary operators that demand two numbers. */
  const NumericOperators: set<TokenType> :=
    {Minus, Slash, Star, Greater, GreaterEqual, Less, LessEqual}

  /** `checkNumberOperands`: both operands must be numbers. */
  function CheckNumberOperands(op: Token, left: Value, right: Value): (r: Result<(real, real), LoxError>)
    ensures r.Ok? <==> left.NumV? && right.NumV?
    ensures r.Ok? ==> r.value == (left.n, right.n)
    ensures r.Err? ==> r.error == RuntimeError(op, OperandsNumbersMessage)
  {
    if left.NumV? && right.NumV? then Ok((left.n, right.n))
    else Err(RuntimeError(op, OperandsNumbersMessage))
  }

  /** Real division; a zero divisor, where IEEE arithmetic gives an infinity or NaN, yields 0. */
  function Divide(a: real, b: real): real
  {
    if b == 0.0 then 0.0 else a / b
  }

  /** The unary operator dispatch of `evaluate`, once the operand has been evaluated. */
  function ApplyUnary(op: Token, right: Value): (r: Result<Value, LoxError>)
    ensures r.Err? <==> op.kind == Minus && !right.NumV?
    ensures r.Err? ==> r.error == RuntimeError(op, OperandNumberMessage)
    ensures op.kind == Bang ==> r == Ok(BoolV(!IsTruthy(right)))
    ensures op.kind == Minus && right.NumV? ==> r == Ok(NumV(-right.n))
    ensures op.kind != Bang && op.kind != Minus ==> r == Ok(NilV)
  {
    match op.kind
    case Bang => Ok(BoolV(!IsTruthy(right)))
    case Minus =>
      if right.NumV? then Ok(NumV(-right.n)) else Err(RuntimeError(op, OperandNumberMessage))
    case _ => Ok(NilV)
  }

  /** The binary operator dispatch of `evaluate`, once both operands have been evaluated. */
  function ApplyBinary(op: Token, left: Value, right: Value): (r: Result<Value, LoxError>)
    ensures op.kind in NumericOperators ==> (r.Ok? <==> left.NumV? && right.NumV?)
    ensures op.kind in NumericOperators && r.Err? ==> r.error == RuntimeError(op, OperandsNumbersMessage)
    ensures op.kind == Plus ==>
      (r.Ok? <==> (left.NumV? && right.NumV?) || (left.StrV? && right.StrV?))
    ensures op.kind == Plus && r.Err? ==> r.error == RuntimeError(op, PlusOperandsMessage)
    ensures op.kind == Plus && left.NumV? && right.NumV? ==> r == Ok(NumV(left.n + right.n))
    ensures op.kind == Plus && left.StrV? && right.StrV? ==> r == Ok(StrV(left.s + right.s))
    ensures op.kind == EqualEqual ==> r == Ok(BoolV(left == right))
    ensures op.kind == BangEqual ==> r == Ok(BoolV(left != right))
    ensures op.kind !in NumericOperators && op.kind !in {Plus, EqualEqual, BangEqual} ==> r == Ok(NilV)
  {
    match op.kind
    case Minus =>
      var (a, b) :- CheckNumberOperands(op, left, right); Ok(NumV(a - b))
    case Slash =>
      var (a, b) :- CheckNumberOperands(op, left, right); Ok(NumV(Divide(a, b)))
    case Star =>
      var (a, b) :- CheckNumberOperands(op, left, right); Ok(NumV(a * b))
    case Plus =>
      if left.NumV? && right.NumV? then Ok(NumV(left.n + right.n))
      else if left.StrV? && right.StrV? then Ok(StrV(left.s + right.s))
      else Err(RuntimeError(op, PlusOperandsMessage))
    case Greater =>
      var (a, b) :- CheckNumberOperands(op, left, right); Ok(BoolV(a > b))
    case GreaterEqual =>
      var (a, b) :- CheckNumberOperands(op, left, right); Ok(BoolV(a >= b))
    case Less =>
      var (a, b) :- CheckNumberOperands(op, left, right); Ok(BoolV(a < b))
    case LessEqual =>
      var (a, b) :- CheckNumberOperands(op, left, right); Ok(BoolV(a <= b))
    case BangEqual => Ok(BoolV(!IsEqual(left, right)))
    case EqualEqual => Ok(BoolV(IsEqual(left, right)))
    case _ => Ok(NilV)
  }

  // ---------------------------------------------------------------------------------------------
  // The environment chain as a sequence of frames, innermost first.

  /** Index of the innermost frame holding `name`. */
  function Holder(frames: seq<Frame>, name: string): (r: Option<nat>)
    ensures r.Some? ==> r.value < |frames| && name in frames[r.value]
    ensures r.Some? ==> forall k :: 0 <= k < r.value ==> name !in frames[k]
    ensures r.None? ==> forall k :: 0 <= k < |frames| ==> name !in frames[k]
  {
    if frames == [] then None
    else if name in frames[0] then Some(0)
    else match Holder(frames[1..], name)
      case None => None
      case Some(k) => Some(k + 1)
  }

  /** `get` on a chain: the innermost binding of the name, or the undefined-variable error. */
  function Lookup(frames: seq<Frame>, name: Token): (r: Result<Value, LoxError>)
    ensures r.Ok? <==> exists k :: 0 <= k < |frames| && name.lexeme in frames[k]
    ensures r.Ok? ==>
      exists k :: 0 <= k < |frames| && name.lexeme in frames[k] && r.value == frames[k][name.lexeme] &&
        forall j :: 0 <= j < k ==> name.lexeme !in frames[j]
    ensures r.Err? ==> r.error == RuntimeError(name, UndefinedMessage(name.lexeme))
  {
    match Holder(frames, name.lexeme)
    case Some(k) => Ok(frames[k][name.lexeme])
    case None => Err(RuntimeError(name, UndefinedMessage(name.lexeme)))
  }

  /** `assign` on a chain: the innermost frame holding the name is updated; the others are not. */
  function Assigned(frames: seq<Frame>, name: string, value: Value): (r: seq<Frame>)
    ensures |r| == |frames|
    ensures forall k :: 0 <= k < |frames| ==>
      r[k] == if Holder(frames, name) == Some(k) then frames[k][name := value] else frames[k]
  {
    if frames == [] then []
    else if name in frames[0] then [frames[0][name := value]] + frames[1..]
    else [frames[0]] + Assigned(frames[1..], name, value)
  }

  /** `define` on a chain: the innermost frame gets the binding. */
  function DefinedIn(frames: seq<Frame>, name: string, value: Value): (r: seq<Frame>)
    requires |frames| > 0
  {
    frames[0 := frames[0][name := value]]
  }

  // ---------------------------------------------------------------------------------------------
  // The forms `evaluate` and `execute` handle.

  /** `evaluate` has branches for literals, groupings, variables, assignments and operators only. */
  predicate Evaluable(e: Expr)
  {
    match e
    case Literal(_) => true
    case Grouping(inner) => Evaluable(inner)
    case Variable(_) => true
    case Assign(_, value) => Evaluable(value)
    case UnaryOp(_, right) => Evaluable(right)
    case BinaryOp(left, _, right) => Evaluable(left) && Evaluable(right)
    case _ => false
  }

  /** `execute` has branches for blocks, expression statements, `print` and `var` only. */
  predicate Executable(s: Stmt)
  {
    match s
    case Block(ss) => forall i | 0 <= i < |ss| :: Executable(ss[i])
    case Expression(e) => Evaluable(e)
    case PrintStmt(e) => Evaluable(e)
    case Var(_, init) => init.Some? ==> Evaluable(init.value)
    case _ => false
  }

  predicate AllExecutable(ss: seq<Stmt>)
  {
    forall i | 0 <= i < |ss| :: Executable(ss[i])
  }

  /** An evaluation's outcome: the value or the runtime error, and the frames afterwards. */
  datatype Evaluated = Evaluated(result: Result<Value, LoxError>, frames: seq<Frame>)

  /** An execution's outcome: success or the runtime error, the frames and the printed values. */
  datatype Outcome = Outcome(result: Result<(), LoxError>, frames: seq<Frame>, output: seq<Value>)

  /** What evaluating `e` on `frames` yields: operands left to right, the first error stops it. */
  function EvalIn(e: Expr, frames: seq<Frame>): (r: Evaluated)
    requires Evaluable(e)
    ensures |r.frames| == |frames|
    decreases e
  {
    match e
    case Literal(lit) => Evaluated(Ok(ValueOf(lit)), frames)
    case Grouping(inner) => EvalIn(inner, frames)
    case Variable(name) => Evaluated(Lookup(frames, name), frames)
    case Assign(name, value) =>
      var v := EvalIn(value, frames);
      if v.result.Err? then v
      else if Holder(v.frames, name.lexeme).None? then
        Evaluated(Err(RuntimeError(name, UndefinedMessage(name.lexeme))), v.frames)
      else Evaluated(v.result, Assigned(v.frames, name.lexeme, v.result.value))
    case UnaryOp(op, right) =>
      var v := EvalIn(right, frames);
      if v.result.Err? then v else Evaluated(ApplyUnary(op, v.result.value), v.frames)
    case BinaryOp(left, op, right) =>
      var l := EvalIn(left, frames);
      if l.result.Err? then l
      else
        var r := EvalIn(right, l.frames);
        if r.result.Err? then r
        else Evaluated(ApplyBinary(op, l.result.value, r.result.value), r.frames)
  }

  /** What executing `s` on `frames` yields; a block runs in a new innermost frame it then drops. */
  function ExecIn(s: Stmt, frames: seq<Frame>, output: seq<Value>): (r: Outcome)
    requires Executable(s) && |frames| > 0
    ensures |r.frames| == |frames|
    decreases s
  {
    match s
    case Block(ss) =>
      var inner := ExecAllIn(ss, [map[]] + frames, output);
      Outcome(inner.result, inner.frames[1..], inner.output)
    case Expression(e) =>
      var v := EvalIn(e, frames);
      Outcome(if v.result.Err? then Err(v.result.error) else Ok(()), v.frames, output)
    case PrintStmt(e) =>
      var v := EvalIn(e, frames);
      if v.result.Err? then Outcome(Err(v.result.error), v.frames, output)
      else Outcome(Ok(()), v.frames, output + [v.result.value])
    case Var(name, init) =>
      if init.None? then Outcome(Ok(()), DefinedIn(frames, name.lexeme, NilV), output)
      else
        var v := EvalIn(init.value, frames);
        if v.result.Err? then Outcome(Err(v.result.error), v.frames, output)
        else Outcome(Ok(()), DefinedIn(v.frames, name.lexeme, v.result.value), output)
  }

  /** Statements in order; the first runtime error ends the run. */
  function ExecAllIn(ss: seq<Stmt>, frames: seq<Frame>, output: seq<Value>): (r: Outcome)
    requires AllExecutable(ss) && |frames| > 0
    ensures |r.frames| == |frames|
    decreases ss
  {
    if ss == [] then Outcome(Ok(()), frames, output)
    else
      var first := ExecIn(ss[0], frames, output);
      if first.result.Err? then first
      else ExecAllIn(ss[1..], first.frames, first.output)
  }

  /** The frame a call starts with: each parameter defined, in order, to the argument at its index. */
  function Bindings(params: seq<Token>, arguments: seq<Value>): Frame
    requires |params| <= |arguments|
  {
    if params == [] then map[]
    else Bindings(params[..|params| - 1], arguments)[params[|params| - 1].lexeme := arguments[|params| - 1]]
  }

  /** `getAt(0, "this")` on a closure frame; `Environment.getAt` is not part of this model. */
  function ThisIn(frame: Frame): Value
  {
    if "this" in frame then frame["this"] else NilV
  }

  /** Whether an expression contains an assignment. */
  predicate Assigns(e: Expr)
  {
    match e
    case Assign(_, _) => true
    case Grouping(inner) => Assigns(inner)
    case UnaryOp(_, right) => Assigns(right)
    case BinaryOp(left, _, right) => Assigns(left) || Assigns(right)
    case _ => false
  }

  /** After `define`, a `get` of the name in the same environment sees the new value. */
  lemma LookupAfterDefine(frames: seq<Frame>, name: Token, value: Value)
    requires |frames| > 0
    ensures Lookup(DefinedIn(frames, name.lexeme, value), name) == Ok(value)
  {
    assert name.lexeme in DefinedIn(frames, name.lexeme, value)[0];
  }

  /** After a successful `assign`, a `get` of the name sees the assigned value. */
  lemma LookupAfterAssign(frames: seq<Frame>, name: Token, value: Value)
    requires Holder(frames, name.lexeme).Some?
    ensures Lookup(Assigned(frames, name.lexeme, value), name) == Ok(value)
  {
    HolderAfterAssign(frames, name.lexeme, value);
    var k := Holder(frames, name.lexeme).value;
    assert Assigned(frames, name.lexeme, value)[k] == frames[k][name.lexeme := value];
  }

  /** Assignment changes no frame's set of names, so the innermost holder stays the same. */
  lemma {:induction false} HolderAfterAssign(frames: seq<Frame>, name: string, value: Value)
    ensures Holder(Assigned(frames, name, value), name) == Holder(frames, name)
    decreases |frames|
  {
    if frames != [] && name !in frames[0] {
      var rest := Assigned(frames[1..], name, value);
      assert ([frames[0]] + rest)[1..] == rest;
      HolderAfterAssign(frames[1..], name, value);
    }
  }

  /** An assignment evaluates to the assigned value, which the variable then holds. */
  lemma AssignmentYieldsAssignedValue(name: Token, value: Expr, frames: seq<Frame>)
    requires Evaluable(value)
    ensures var r := EvalIn(Assign(name, value), frames);
      r.result.Ok? ==> r.result == EvalIn(value, frames).result && Lookup(r.frames, name) == r.result
  {
    var v := EvalIn(value, frames);
    if v.result.Ok? && Holder(v.frames, name.lexeme).Some? {
      var after := Assigned(v.frames, name.lexeme, v.result.value);
      assert EvalIn(Assign(name, value), frames) == Evaluated(v.result, after);
      LookupAfterAssign(v.frames, name, v.result.value);
      assert Lookup(after, name) == Ok(v.result.value);
    }
  }

  /** Evaluating an expression without assignments leaves every environment as it was. */
  lemma {:induction false} ReadOnlyLeavesFrames(e: Expr, frames: seq<Frame>)
    requires Evaluable(e) && !Assigns(e)
    ensures EvalIn(e, frames).frames == frames
    decreases e
  {
    match e {
      case Literal(_) =>
      case Variable(_) =>
      case Grouping(inner) =>
        ReadOnlyLeavesFrames(inner, frames);
      case UnaryOp(_, right) =>
        ReadOnlyLeavesFrames(right, frames);
      case BinaryOp(left, _, right) =>
        ReadOnlyLeavesFrames(left, frames);
        ReadOnlyLeavesFrames(right, frames);
    }
  }

  /**
   * Both operands are evaluated before the operator checks their types: an error in the left
   * operand is the whole error, and an error in the right one wins over any type error.
   */
  lemma OperandsBeforeTypeCheck(left: Expr, op: Token, right: Expr, frames: seq<Frame>)
    requires Evaluable(left) && Evaluable(right)
    ensures var l := EvalIn(left, frames);
      var whole := EvalIn(BinaryOp(left, op, right), frames);
      (l.result.Err? ==> whole == l) &&
      (l.result.Ok? && EvalIn(right, l.frames).result.Err? ==> whole == EvalIn(right, l.frames))
  {
  }

  /** Running `a + b` runs `a`, then `b` only when `a` raised no runtime error. */
  lemma {:induction false} ExecAllAppend(a: seq<Stmt>, b: seq<Stmt>, frames: seq<Frame>, output: seq<Value>)
    requires AllExecutable(a) && AllExecutable(b) && |frames| > 0
    ensures AllExecutable(a + b)
    ensures var first := ExecAllIn(a, frames, output);
      ExecAllIn(a + b, frames, output) ==
        if first.result.Err? then first else ExecAllIn(b, first.frames, first.output)
    decreases a
  {
    assert AllExecutable(a + b) by {
      forall i | 0 <= i < |a + b|
        ensures Executable((a + b)[i])
      {
        if i < |a| { assert (a + b)[i] == a[i]; } else { assert (a + b)[i] == b[i - |a|]; }
      }
    }
    if a != [] {
      assert (a + b)[0] == a[0] && (a + b)[1..] == a[1..] + b;
      var head := ExecIn(a[0], frames, output);
      if head.result.Ok? {
        assert AllExecutable(a[1..]) by {
          forall i | 0 <= i < |a[1..]|
            ensures Executable(a[1..][i])
          {
            assert a[1..][i] == a[i + 1];
          }
        }
        ExecAllAppend(a[1..], b, head.frames, head.output);
      }
    } else {
      assert a + b == b;
    }
  }

  /** `var` without an initializer binds `nil` in the current environment. */
  lemma VarWithoutInitializerIsNil(name: Token, frames: seq<Frame>, output: seq<Value>)
    requires |frames| > 0
    ensures var o := ExecIn(Stmt.Var(name, None), frames, output);
      o.result.Ok? && o.output == output && o.frames[1..] == frames[1..] && Lookup(o.frames, name) == Ok(NilV)
  {
    LookupAfterDefine(frames, name, NilV);
  }

  /** A block's declarations live in its own environment: the enclosing ones are untouched. */
  lemma BlockDeclarationIsLocal(name: Token, frames: seq<Frame>, output: seq<Value>)
    requires |frames| > 0
    ensures ExecIn(Block([Stmt.Var(name, None)]), frames, output) == Outcome(Ok(()), frames, output)
  {
    var body := [Stmt.Var(name, None)];
    var inner := [map[]] + frames;
    var declared := ExecIn(body[0], inner, output);
    assert declared == Outcome(Ok(()), DefinedIn(inner, name.lexeme, NilV), output);
    assert body[1..] == [];
    assert ExecAllIn(body, inner, output) == declared;
    assert DefinedIn(inner, name.lexeme, NilV)[1..] == frames;
  }

  /** The frame a call starts with binds each parameter not repeated later to its own argument. */
  lemma {:induction false} BindingsBindEachParameter(params: seq<Token>, arguments: seq<Value>, i: nat)
    requires i < |params| <= |arguments|
    requires forall j :: i < j < |params| ==> params[j].lexeme != params[i].lexeme
    ensures params[i].lexeme in Bindings(params, arguments)
    ensures Bindings(params, arguments)[params[i].lexeme] == arguments[i]
    decreases |params|
  {
    var n := |params|;
    if i < n - 1 {
      var front := params[..n - 1];
      assert front[i] == params[i];
      forall j | i < j < |front|
        ensures front[j].lexeme != front[i].lexeme
      {
        assert front[j] == params[j];
      }
      BindingsBindEachParameter(front, arguments, i);
    }
  }

  // ---------------------------------------------------------------------------------------------
  // The heap objects.

  /** An environment: its own variables and the enclosing environment, if any. */
  class Environment {
    const enclosing: Environment?
    /** This environment and every one it encloses. */
    ghost const Repr: set<Environment>
    var values: map<string, Value>

    ghost predicate Valid()
      decreases Repr
    {
      this in Repr &&
      (enclosing == null ==> Repr == {this}) &&
      (enclosing != null ==>
         enclosing in Repr && this !in enclosing.Repr && Repr == {this} + enclosing.Repr &&
         enclosing.Valid())
    }

    constructor(enclosing: Environment?)
      requires enclosing != null ==> enclosing.Valid()
      ensures Valid() && this.enclosing == enclosing && values == map[]
      ensures Repr == {this} + (if enclosing == null then {} else enclosing.Repr)
    {
      this.enclosing := enclosing;
      Repr := {this} + (if enclosing == null then {} else enclosing.Repr);
      values := map[];
    }

    /** The chain's variables, this environment's first. */
    ghost function Frames(): (r: seq<Frame>)
      requires Valid()
      reads Repr
      ensures |r| >= 1 && r[0] == values
      decreases Repr
    {
      [values] + (if enclosing == null then [] else enclosing.Frames())
    }

    /** `get`: the innermost binding along the chain, or "Undefined variable". */
    function Get(name: Token): (r: Result<Value, LoxError>)
      requires Valid()
      reads Repr
      ensures r == Lookup(Frames(), name)
      decreases Repr
    {
      if name.lexeme in values then Ok(values[name.lexeme])
      else if enclosing != null then enclosing.Get(name)
      else Err(RuntimeError(name, UndefinedMessage(name.lexeme)))
    }

    /** `define`: this environment's map only, overwriting any earlier binding. */
    method Define(name: string, value: Value)
      requires Valid()
      modifies this`values
      ensures values == old(values)[name := value]
      ensures Frames() == DefinedIn(old(Frames()), name, value)
    {
      values := values[name := value];
    }

    /** `assign`: the innermost environment holding the name is updated; an unknown name is an error. */
    method Assign(name: Token, value: Value) returns (r: Result<(), LoxError>)
      requires Valid()
      modifies Repr
      ensures r.Ok? <==> Holder(old(Frames()), name.lexeme).Some?
      ensures Frames() == Assigned(old(Frames()), name.lexeme, value)
      ensures r.Err? ==> r.error == RuntimeError(name, UndefinedMessage(name.lexeme))
      decreases Repr
    {
      if name.lexeme in values {
        values := values[name.lexeme := value];
        return Ok(());
      }
      if enclosing != null {
        r := enclosing.Assign(name, value);
        return;
      }
      return Err(RuntimeError(name, UndefinedMessage(name.lexeme)));
    }
  }

  /** A class instance; `LoxInstance` is not part of this model beyond the class it instantiates. */
  class LoxInstance {
    const klass: LoxClass

    constructor(klass: LoxClass)
      ensures this.klass == klass
    {
      this.klass := klass;
    }
  }

  class Interpreter {
    var reporter: ErrorReporter
    var environment: Environment
    /** The values `print` statements wrote, in order; their rendering (`stringify`) is left out. */
    var output: seq<Value>

    constructor()
      ensures environment.Valid() && environment.enclosing == null && environment.values == map[]
      ensures output == [] && reporter.parseErrors == [] && reporter.runtimeErrors == []
    {
      reporter := new ErrorReporter("");
      environment := new Environment(null);
      output := [];
    }

    /** `evaluate`: agrees with `EvalIn` on the environment chain. */
    method Evaluate(e: Expr) returns (r: Result<Value, LoxError>)
      requires Evaluable(e) && environment.Valid()
      modifies environment.Repr
      ensures EvalIn(e, old(environment.Frames())) == Evaluated(r, environment.Frames())
      decreases e
    {
      match e {
        case Literal(lit) =>
          r := Ok(ValueOf(lit));
        case Grouping(inner) =>
          r := Evaluate(inner);
        case Variable(name) =>
          r := environment.Get(name);
        case Assign(name, value) =>
          var v :- Evaluate(value);
          var stored := environment.Assign(name, v);
          if stored.Err? {
            return Err(stored.error);
          }
          r := Ok(v);
        case UnaryOp(op, right) =>
          var v :- Evaluate(right);
          r := ApplyUnary(op, v);
        case BinaryOp(left, op, right) =>
          var l :- Evaluate(left);
          var rv :- Evaluate(right);
          r := ApplyBinary(op, l, rv);
      }
    }

    /** `execute`: agrees with `ExecIn`, and the current environment is the same afterwards. */
    method Execute(s: Stmt) returns (r: Result<(), LoxError>)
      requires Executable(s) && environment.Valid()
      modifies this`environment, this`output, environment.Repr
      ensures environment == old(environment)
      ensures ExecIn(s, old(environment.Frames()), old(output)) == Outcome(r, environment.Frames(), output)
      decreases s
    {
      match s {
        case Block(ss) =>
          var inner := new Environment(environment);
          r := ExecuteBlock(ss, inner);
        case Expression(e) =>
          var v := Evaluate(e);
          r := if v.Err? then Err(v.error) else Ok(());
        case PrintStmt(e) =>
          var v := Evaluate(e);
          if v.Err? {
            return Err(v.error);
          }
          output := output + [v.value];
          r := Ok(());
        case Var(name, init) =>
          var value := NilV;
          if init.Some? {
            var v := Evaluate(init.value);
            if v.Err? {
              return Err(v.error);
            }
            value := v.value;
          }
          environment.Define(name.lexeme, value);
          r := Ok(());
      }
    }

    /**
     * `executeBlock`: runs the statements with `env` as the current environment, stops at the
     * first runtime error, and restores the previous environment on either exit.
     */
    method ExecuteBlock(ss: seq<Stmt>, env: Environment) returns (r: Result<(), LoxError>)
      requires AllExecutable(ss) && env.Valid()
      modifies this`environment, this`output, env.Repr
      ensures environment == old(environment)
      ensures ExecAllIn(ss, old(env.Frames()), old(output)) == Outcome(r, env.Frames(), output)
      decreases ss
    {
      var previous := environment;
      environment := env;
      var i := 0;
      while i < |ss|
        invariant i <= |ss| && environment == env
        invariant ExecAllIn(ss, old(env.Frames()), old(output)) == ExecAllIn(ss[i..], env.Frames(), output)
      {
        assert ss[i..][0] == ss[i] && ss[i..][1..] == ss[i + 1..];
        var step := Execute(ss[i]);
        if step.Err? {
          environment := previous;
          return step;
        }
        i := i + 1;
      }
      environment := previous;
      r := Ok(());
    }

    /** `interpret`: the statements in order; a runtime error ends the run and is reported once. */
    method Interpret(ss: seq<Stmt>)
      requires AllExecutable(ss) && environment.Valid()
      modifies this`environment, this`output, environment.Repr, reporter`runtimeErrors
      ensures environment == old(environment)
      ensures var o := ExecAllIn(ss, old(environment.Frames()), old(output));
        environment.Frames() == o.frames && output == o.output &&
        reporter.runtimeErrors == old(reporter.runtimeErrors) + (if o.result.Err? then [o.result.error] else [])
    {
      var i := 0;
      while i < |ss|
        invariant i <= |ss| && environment == old(environment)
        invariant reporter.runtimeErrors == old(reporter.runtimeErrors)
        invariant ExecAllIn(ss, old(environment.Frames()), old(output)) ==
          ExecAllIn(ss[i..], environment.Frames(), output)
      {
        assert ss[i..][0] == ss[i] && ss[i..][1..] == ss[i + 1..];
        var step := Execute(ss[i]);
        if step.Err? {
          reporter.RuntimeError(step.error);
          return;
        }
        i := i + 1;
      }
    }

    /** `evaluateToStr` without the rendering: the value, or nothing after reporting the error. */
    method EvaluateOrReport(e: Expr) returns (r: Option<Value>)
      requires Evaluable(e) && environment.Valid()
      modifies environment.Repr, reporter`runtimeErrors
      ensures var v := EvalIn(e, old(environment.Frames()));
        environment.Frames() == v.frames &&
        (r.Some? <==> v.result.Ok?) && (r.Some? ==> r.value == v.result.value) &&
        reporter.runtimeErrors == old(reporter.runtimeErrors) + (if v.result.Err? then [v.result.error] else [])
    {
      var v := Evaluate(e);
      if v.Err? {
        reporter.RuntimeError(v.error);
        return None;
      }
      return Some(v.value);
    }
  }

  /** A user function: its declaration, the environment it closes over, and whether it is an `init`. */
  class LoxFunction {
    const declaration: Function
    const closure: Environment
    const isInitializer: bool

    constructor(declaration: Function, closure: Environment, isInitializer: bool)
      ensures this.declaration == declaration && this.closure == closure
      ensures this.isInitializer == isInitializer
    {
      this.declaration := declaration;
      this.closure := closure;
      this.isInitializer := isInitializer;
    }

    function Arity(): nat
    {
      |declaration.params|
    }

    /**
     * `call`: the body runs in a new environment enclosing `closure` with each parameter bound to
     * its argument. An initializer yields the closure's `this`, any other function `nil`; a runtime
     * error in the body is the call's error. Kotlin's `arguments[i]` throws when there are fewer
     * arguments than parameters.
     */
    method Call(interpreter: Interpreter, arguments: seq<Value>) returns (r: Result<Value, LoxError>)
      requires Arity() <= |arguments|
      requires AllExecutable(declaration.body) && closure.Valid()
      modifies interpreter`environment, interpreter`output, closure.Repr
      ensures interpreter.environment == old(interpreter.environment)
      ensures var o := ExecAllIn(declaration.body, [Bindings(declaration.params, arguments)] + old(closure.Frames()),
                                 old(interpreter.output));
        interpreter.output == o.output && closure.Frames() == o.frames[1..] &&
        r == if o.result.Err? then Err(o.result.error)
             else if isInitializer then Ok(ThisIn(o.frames[1]))
             else Ok(NilV)
    {
      var environment := new Environment(closure);
      DefineParameters(environment, arguments);
      var result := interpreter.ExecuteBlock(declaration.body, environment);
      if result.Err? {
        return Err(result.error);
      }
      if isInitializer {
        return Ok(ThisIn(closure.values));
      }
      return Ok(NilV);
    }

    /** The parameter loop of `call`: parameter `i` defined to `arguments[i]`, in order. */
    method DefineParameters(environment: Environment, arguments: seq<Value>)
      requires Arity() <= |arguments| && environment.values == map[]
      modifies environment`values
      ensures environment.values == Bindings(declaration.params, arguments)
    {
      for i := 0 to |declaration.params|
        invariant environment.values == Bindings(declaration.params[..i], arguments)
      {
        assert declaration.params[..i + 1][..i] == declaration.params[..i];
        environment.values := environment.values[declaration.params[i].lexeme := arguments[i]];
      }
      assert declaration.params[..|declaration.params|] == declaration.params;
    }

    /** `bind`: the same function closing over a new environment that binds `this` to the instance. */
    method Bind(instance: LoxInstance) returns (f: LoxFunction)
      requires closure.Valid()
      ensures fresh(f) && fresh(f.closure)
      ensures f.declaration == declaration && f.isInitializer == isInitializer
      ensures f.closure.Valid() && f.closure.enclosing == closure
      ensures f.closure.Frames() == [map["this" := InstanceV(instance)]] + closure.Frames()
    {
      var environment := new Environment(closure);
      environment.Define("this", InstanceV(instance));
      f := new LoxFunction(declaration, environment, isInitializer);
    }
  }

  /** A class: its name and its own method table. */
  class LoxClass {
    const name: string
    const methods: map<string, LoxFunction>

    constructor(name: string, methods: map<string, LoxFunction>)
      ensures this.name == name && this.methods == methods
    {
      this.name := name;
      this.methods := methods;
    }

    /** `findMethod`: this class's own table only. */
    function FindMethod(name: string): (r: Option<LoxFunction>)
      ensures r.Some? <==> name in methods
      ensures r.Some? ==> r.value == methods[name]
    {
      if name in methods then Some(methods[name]) else None
    }

    /** `arity`: the initializer's, or 0 without one. */
    function Arity(): (n: nat)
      ensures "init" in methods ==> n == |methods["init"].declaration.params|
      ensures "init" !in methods ==> n == 0
    {
      match FindMethod("init")
      case Some(init) => init.Arity()
      case None => 0
    }

    /**
     * `call`: a new instance of this class; when there is an `init`, it is bound to the instance and
     * called with the arguments first, and its runtime error is the call's error.
     */
    method Call(interpreter: Interpreter, arguments: seq<Value>)
      returns (r: Result<Value, LoxError>, ghost instance: LoxInstance)
      requires Arity() <= |arguments|
      requires "init" in methods ==>
        AllExecutable(methods["init"].declaration.body) && methods["init"].closure.Valid()
      modifies interpreter`environment, interpreter`output,
        if "init" in methods then methods["init"].closure.Repr else {}
      ensures fresh(instance) && instance.klass == this
      ensures interpreter.environment == old(interpreter.environment)
      ensures "init" !in methods ==> r == Ok(InstanceV(instance)) && interpreter.output == old(interpreter.output)
      ensures "init" in methods ==>
        var init := methods["init"];
        var o := ExecAllIn(init.declaration.body,
                           [Bindings(init.declaration.params, arguments), map["this" := InstanceV(instance)]] +
                           old(init.closure.Frames()),
                           old(interpreter.output));
        interpreter.output == o.output && init.closure.Frames() == o.frames[2..] &&
        r == if o.result.Err? then Err(o.result.error) else Ok(InstanceV(instance))
    {
      var created := new LoxInstance(this);
      instance := created;
      if "init" in methods {
        var called := RunInitializer(methods["init"], created, interpreter, arguments);
        if called.Err? {
          return Err(called.error), instance;
        }
      }
      return Ok(InstanceV(created)), instance;
    }

    /** The `init` step of `call`: `bind(instance)` then `call(interpreter, arguments)`. */
    static method RunInitializer(init: LoxFunction, instance: LoxInstance, interpreter: Interpreter,
                                 arguments: seq<Value>)
      returns (r: Result<Value, LoxError>)
      requires init.Arity() <= |arguments|
      requires AllExecutable(init.declaration.body) && init.closure.Valid()
      modifies interpreter`environment, interpreter`output, init.closure.Repr
      ensures interpreter.environment == old(interpreter.environment)
      ensures var o := ExecAllIn(init.declaration.body,
                                 [Bindings(init.declaration.params, arguments), map["this" := InstanceV(instance)]] +
                                 old(init.closure.Frames()),
                                 old(interpreter.output));
        interpreter.output == o.output && init.closure.Frames() == o.frames[2..] &&
        (r.Err? <==> o.result.Err?) && (r.Err? ==> r.error == o.result.error) &&
        (r.Ok? ==> r.value == if init.isInitializer then ThisIn(o.frames[1]) else NilV)
    {
      var bound := init.Bind(instance);
      ghost var frames := [Bindings(init.declaration.params, arguments)] + bound.closure.Frames();
      assert frames ==
        [Bindings(init.declaration.params, arguments), map["this" := InstanceV(instance)]] + init.closure.Frames();
      ghost var o := ExecAllIn(init.declaration.body, frames, interpreter.output);
      assert o == ExecAllIn(init.declaration.body,
                            [Bindings(init.declaration.params, arguments), map["this" := InstanceV(instance)]] +
                            old(init.closure.Frames()),
                            old(interpreter.output));
      r := bound.Call(interpreter, arguments);
      ghost var after := bound.closure.Frames();
      assert after == o.frames[1..] && after == [bound.closure.values] + init.closure.Frames();
      assert o.frames[2..] == after[1..] == init.closure.Frames();
      assert o.frames[1] == after[0];
    }
  }
}
