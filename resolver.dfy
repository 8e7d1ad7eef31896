/**
 * The static resolution pass (src/main/lox/analysis/Resolver.kt): a stack of scopes mapping each
 * local name to whether its declaration is complete, the kind of function being resolved, and the
 * hop counts recorded for variable reads and assignments.
 */
module Resolver {
  import opened Wrappers
  import opened Tokens
  import opened Ast
  import opened ErrorReporter

  /** `FunctionType`: NONE at top level, FUNCTION inside a function or lambda body. */
  datatype FunctionType = TopLevel | InFunction

  /** One scope: a local name maps to `false` while it is declared but not yet defined. */
  type Scope = map<string, bool>

  const RedeclarationMessage := "There is already a variable with this name in scope."
  const OwnInitializerMessage := "Can't read local variable in its own initializer."
  const TopLevelReturnMessage := "Can't return from top-level code."

  // The resolver's `when` has no branch for class declarations; these predicates exclude them.

  predicate ExprClassFree(e: Expr)
    decreases e
  {
    match e
    case BinaryOp(l, _, r) => ExprClassFree(l) && ExprClassFree(r)
    case UnaryOp(_, r) => ExprClassFree(r)
    case Grouping(inner) => ExprClassFree(inner)
    case Literal(_) => true
    case Variable(_) => true
    case Assign(_, v) => ExprClassFree(v)
    case Call(callee, args) => ExprClassFree(callee) && forall a | a in args :: ExprClassFree(a)
    case Logical(l, _, r) => ExprClassFree(l) && ExprClassFree(r)
    case Lambda(f) => FunctionClassFree(f)
  }

  predicate FunctionClassFree(f: Function)
    decreases f
  {
    StmtsClassFree(f.body)
  }

  predicate StmtsClassFree(ss: seq<Stmt>)
    decreases ss
  {
    forall s | s in ss :: StmtClassFree(s)
  }

  predicate StmtClassFree(s: Stmt)
    decreases s
  {
    match s
    case Block(ss) => StmtsClassFree(ss)
    case ClassStmt(_, _, _) => false
    case Expression(e) => ExprClassFree(e)
    case FunctionStmt(f) => FunctionClassFree(f)
    case If(c, t, e) => ExprClassFree(c) && StmtClassFree(t) && (e.Some? ==> StmtClassFree(e.value))
    case PrintStmt(e) => ExprClassFree(e)
    case Return(_, v) => v.Some? ==> ExprClassFree(v.value)
    case Var(_, init) => init.Some? ==> ExprClassFree(init.value)
    case While(c, b) => ExprClassFree(c) && StmtClassFree(b)
    case Break => true
  }

  /** The innermost scope (the top of the stack). */
  function Top(scopes: seq<Scope>): Scope
    requires |scopes| > 0
  {
    scopes[|scopes| - 1]
  }

  /** `scope[name] = flag` on the innermost scope, when there is one. */
  function Mark(scopes: seq<Scope>, name: string, flag: bool): (r: seq<Scope>)
    ensures |r| == |scopes|
  {
    if scopes == [] then [] else scopes[..|scopes| - 1] + [Top(scopes)[name := flag]]
  }

  /** `m` with every name of `names` defined (mapped to true). */
  function Defined(m: Scope, names: set<string>): (r: Scope)
    ensures r.Keys == m.Keys + names
  {
    map k | k in m.Keys + names :: k in names || m[k]
  }

  /** The scope stack after `names` are declared and defined in its innermost scope, if any. */
  function DefineAll(scopes: seq<Scope>, names: set<string>): (r: seq<Scope>)
    ensures |r| == |scopes|
  {
    if scopes == [] then [] else scopes[..|scopes| - 1] + [Defined(Top(scopes), names)]
  }

  /** The names a statement declares in the scope it is resolved in (a block opens its own). */
  function Binds(s: Stmt): set<string>
  {
    match s
    case Var(name, _) => {name.lexeme}
    case FunctionStmt(f) => {f.name.lexeme}
    case If(_, t, e) => Binds(t) + (if e.Some? then Binds(e.value) else {})
    case While(_, b) => Binds(b)
    case _ => {}
  }

  function BindsAll(ss: seq<Stmt>): set<string>
  {
    if ss == [] then {} else BindsAll(ss[..|ss| - 1]) + Binds(ss[|ss| - 1])
  }

  function ParamNames(params: seq<Token>): set<string>
  {
    if params == [] then {} else ParamNames(params[..|params| - 1]) + {params[|params| - 1].lexeme}
  }

  /** A read sees a declaration whose initializer is still being resolved. */
  predicate ReadsUninitialized(scopes: seq<Scope>, name: string)
  {
    |scopes| > 0 && name in Top(scopes) && !Top(scopes)[name]
  }

  /** Index of the innermost scope holding `name`. */
  function InnermostIndex(scopes: seq<Scope>, name: string): (r: Option<nat>)
    ensures r.Some? ==> r.value < |scopes| && name in scopes[r.value]
    ensures r.Some? ==> forall j :: r.value < j < |scopes| ==> name !in scopes[j]
    ensures r.None? ==> forall j :: 0 <= j < |scopes| ==> name !in scopes[j]
  {
    if scopes == [] then None
    else if name in Top(scopes) then Some(|scopes| - 1)
    else InnermostIndex(scopes[..|scopes| - 1], name)
  }

  /** Index of the outermost scope at or above index `from` holding `name`. */
  function OutermostFrom(scopes: seq<Scope>, from: nat, name: string): (r: Option<nat>)
    ensures r.Some? ==> from <= r.value < |scopes| && name in scopes[r.value]
    ensures r.Some? ==> forall j :: from <= j < r.value ==> name !in scopes[j]
    ensures r.None? ==> forall j :: from <= j < |scopes| ==> name !in scopes[j]
    decreases |scopes| - from
  {
    if from >= |scopes| then None
    else if name in scopes[from] then Some(from)
    else OutermostFrom(scopes, from + 1, name)
  }

  /** The resolution map after recording the scope at `index`, as a hop count from the top. */
  function Recorded(locals: map<Expr, nat>, e: Expr, depth: nat, index: Option<nat>): map<Expr, nat>
  {
    if index.Some? && index.value < depth then locals[e := depth - 1 - index.value] else locals
  }

  /** The redeclaration error `declare` reports for `name`, if any. */
  function DeclareErrors(scopes: seq<Scope>, name: Token): seq<LoxError>
  {
    if |scopes| > 0 && name.lexeme in Top(scopes) then [LoxError(name.position, RedeclarationMessage)] else []
  }

  /**
   * The errors of declaring the parameters one after another in a scope that starts as `top`: a
   * parameter is reported when `top` or an earlier parameter already has its name.
   */
  function ParamErrors(top: Scope, params: seq<Token>): seq<LoxError>
  {
    if params == [] then []
    else
      var last := params[|params| - 1];
      ParamErrors(top, params[..|params| - 1]) +
        (if last.lexeme in top || last.lexeme in ParamNames(params[..|params| - 1])
         then [LoxError(last.position, RedeclarationMessage)] else [])
  }

  // The resolution map the pass leaves behind, given the scopes it starts in. Each variable read
  // and assignment is a site; `resolveLocal` records its hop count, searching as written.

  /** The name a read or assignment site looks up. */
  function SiteName(x: Expr): string
  {
    match x
    case Variable(name) => name.lexeme
    case Assign(name, _) => name.lexeme
    case _ => ""
  }

  /** The variable reads and assignments in an expression, lambdas' bodies included. */
  function ExprSites(e: Expr): set<Expr>
    decreases e
  {
    match e
    case BinaryOp(l, _, r) => ExprSites(l) + ExprSites(r)
    case UnaryOp(_, r) => ExprSites(r)
    case Grouping(inner) => ExprSites(inner)
    case Literal(_) => {}
    case Variable(_) => {e}
    case Assign(_, v) => {e} + ExprSites(v)
    case Call(callee, args) => ExprSites(callee) + ArgSites(args)
    case Logical(l, _, r) => ExprSites(l) + ExprSites(r)
    case Lambda(f) => FunctionSites(f)
  }

  function ArgSites(args: seq<Expr>): set<Expr>
    decreases args
  {
    if args == [] then {} else ArgSites(args[..|args| - 1]) + ExprSites(args[|args| - 1])
  }

  function FunctionSites(f: Function): set<Expr>
    decreases f
  {
    StmtsSites(f.body)
  }

  function StmtSites(s: Stmt): set<Expr>
    decreases s
  {
    match s
    case Block(ss) => StmtsSites(ss)
    case ClassStmt(_, _, _) => {}
    case Expression(e) => ExprSites(e)
    case FunctionStmt(f) => FunctionSites(f)
    case If(c, t, e) => ExprSites(c) + StmtSites(t) + (if e.Some? then StmtSites(e.value) else {})
    case PrintStmt(e) => ExprSites(e)
    case Return(_, v) => if v.Some? then ExprSites(v.value) else {}
    case Var(_, init) => if init.Some? then ExprSites(init.value) else {}
    case While(c, b) => ExprSites(c) + StmtSites(b)
    case Break => {}
  }

  function StmtsSites(ss: seq<Stmt>): set<Expr>
    decreases ss
  {
    if ss == [] then {} else StmtsSites(ss[..|ss| - 1]) + StmtSites(ss[|ss| - 1])
  }

  /** The map after `resolve(expr)` in `scopes`. */
  function ExprLocals(e: Expr, scopes: seq<Scope>, locals: map<Expr, nat>): map<Expr, nat>
    decreases e
  {
    match e
    case BinaryOp(l, _, right) => ExprLocals(right, scopes, ExprLocals(l, scopes, locals))
    case UnaryOp(_, right) => ExprLocals(right, scopes, locals)
    case Grouping(inner) => ExprLocals(inner, scopes, locals)
    case Literal(_) => locals
    case Variable(name) => Recorded(locals, e, |scopes|, OutermostFrom(scopes, 0, name.lexeme))
    case Assign(name, v) =>
      Recorded(ExprLocals(v, scopes, locals), e, |scopes|, OutermostFrom(scopes, 0, name.lexeme))
    case Call(callee, args) => ArgLocals(args, scopes, ExprLocals(callee, scopes, locals))
    case Logical(l, _, right) => ExprLocals(right, scopes, ExprLocals(l, scopes, locals))
    case Lambda(f) => FunctionLocals(f, scopes, locals)
  }

  /** The arguments, left to right. */
  function ArgLocals(args: seq<Expr>, scopes: seq<Scope>, locals: map<Expr, nat>): map<Expr, nat>
    decreases args
  {
    if args == [] then locals
    else ExprLocals(args[|args| - 1], scopes, ArgLocals(args[..|args| - 1], scopes, locals))
  }

  /** The body, in a new scope holding the parameters. */
  function FunctionLocals(f: Function, scopes: seq<Scope>, locals: map<Expr, nat>): map<Expr, nat>
    decreases f
  {
    StmtsLocals(f.body, DefineAll(scopes + [map[]], ParamNames(f.params)), locals)
  }

  /** The map after `resolve(stmt)`; a class declaration, which the pass does not handle, changes nothing. */
  function StmtLocals(s: Stmt, scopes: seq<Scope>, locals: map<Expr, nat>): map<Expr, nat>
    decreases s
  {
    match s
    case Block(ss) => StmtsLocals(ss, scopes + [map[]], locals)
    case ClassStmt(_, _, _) => locals
    case Expression(e) => ExprLocals(e, scopes, locals)
    case FunctionStmt(f) => FunctionLocals(f, DefineAll(scopes, {f.name.lexeme}), locals)
    case If(c, t, e) =>
      var afterThen := StmtLocals(t, scopes, ExprLocals(c, scopes, locals));
      if e.Some? then StmtLocals(e.value, DefineAll(scopes, Binds(t)), afterThen) else afterThen
    case PrintStmt(e) => ExprLocals(e, scopes, locals)
    case Return(_, v) => if v.Some? then ExprLocals(v.value, scopes, locals) else locals
    case Var(name, init) =>
      if init.Some? then ExprLocals(init.value, Mark(scopes, name.lexeme, false), locals) else locals
    case While(c, b) => StmtLocals(b, scopes, ExprLocals(c, scopes, locals))
    case Break => locals
  }

  /** The statements in order, each in the scopes the ones before it left. */
  function StmtsLocals(ss: seq<Stmt>, scopes: seq<Scope>, locals: map<Expr, nat>): map<Expr, nat>
    decreases ss
  {
    if ss == [] then locals
    else
      StmtLocals(ss[|ss| - 1], DefineAll(scopes, BindsAll(ss[..|ss| - 1])),
                 StmtsLocals(ss[..|ss| - 1], scopes, locals))
  }

  // The errors the pass reports, in order, given the scopes and the function kind it starts in.

  function ExprErrors(e: Expr, scopes: seq<Scope>): seq<LoxError>
    decreases e
  {
    match e
    case BinaryOp(l, _, r) => ExprErrors(l, scopes) + ExprErrors(r, scopes)
    case UnaryOp(_, r) => ExprErrors(r, scopes)
    case Grouping(inner) => ExprErrors(inner, scopes)
    case Literal(_) => []
    case Variable(name) =>
      if ReadsUninitialized(scopes, name.lexeme) then [LoxError(name.position, OwnInitializerMessage)] else []
    case Assign(_, v) => ExprErrors(v, scopes)
    case Call(callee, args) => ExprErrors(callee, scopes) + ArgErrors(args, scopes)
    case Logical(l, _, r) => ExprErrors(l, scopes) + ExprErrors(r, scopes)
    case Lambda(f) => FunctionErrors(f, scopes, InFunction)
  }

  function ArgErrors(args: seq<Expr>, scopes: seq<Scope>): seq<LoxError>
    decreases args
  {
    if args == [] then [] else ArgErrors(args[..|args| - 1], scopes) + ExprErrors(args[|args| - 1], scopes)
  }

  /** Repeated parameters first, then the body's errors under the given function kind. */
  function FunctionErrors(f: Function, scopes: seq<Scope>, kind: FunctionType): seq<LoxError>
    decreases f
  {
    ParamErrors(map[], f.params) +
      StmtsErrors(f.body, DefineAll(scopes + [map[]], ParamNames(f.params)), kind)
  }

  function StmtErrors(s: Stmt, scopes: seq<Scope>, kind: FunctionType): seq<LoxError>
    decreases s
  {
    match s
    case Block(ss) => StmtsErrors(ss, scopes + [map[]], kind)
    case ClassStmt(_, _, _) => []
    case Expression(e) => ExprErrors(e, scopes)
    case FunctionStmt(f) =>
      DeclareErrors(scopes, f.name) + FunctionErrors(f, DefineAll(scopes, {f.name.lexeme}), InFunction)
    case If(c, t, e) =>
      ExprErrors(c, scopes) + StmtErrors(t, scopes, kind) +
        (if e.Some? then StmtErrors(e.value, DefineAll(scopes, Binds(t)), kind) else [])
    case PrintStmt(e) => ExprErrors(e, scopes)
    case Return(keyword, v) =>
      (if kind == TopLevel then [LoxError(keyword.position, TopLevelReturnMessage)] else []) +
        (if v.Some? then ExprErrors(v.value, scopes) else [])
    case Var(name, init) =>
      DeclareErrors(scopes, name) +
        (if init.Some? then ExprErrors(init.value, Mark(scopes, name.lexeme, false)) else [])
    case While(c, b) => ExprErrors(c, scopes) + StmtErrors(b, scopes, kind)
    case Break => []
  }

  function StmtsErrors(ss: seq<Stmt>, scopes: seq<Scope>, kind: FunctionType): seq<LoxError>
    decreases ss
  {
    if ss == [] then []
    else
      StmtsErrors(ss[..|ss| - 1], scopes, kind) +
        StmtErrors(ss[|ss| - 1], DefineAll(scopes, BindsAll(ss[..|ss| - 1])), kind)
  }

  class Resolver {
    /** The scope stack; its last element is the innermost scope. */
    var scopes: seq<Scope>
    var currentFunction: FunctionType
    /**
     * Hop counts the pass records for each resolved variable read or assignment. It stands for
     * `Interpreter.resolve`, which is not part of this model.
     */
    var locals: map<Expr, nat>
    const reporter: ErrorReporter

    constructor(reporter: ErrorReporter)
      ensures this.reporter == reporter && scopes == [] && currentFunction == TopLevel && locals == map[]
    {
      this.reporter := reporter;
      scopes := [];
      currentFunction := TopLevel;
      locals := map[];
    }

    method BeginScope()
      modifies this`scopes
      ensures scopes == old(scopes) + [map[]]
    {
      scopes := scopes + [map[]];
    }

    /** `endScope`: Java's `Stack.pop` throws on an empty stack; the pass only pops what it pushed. */
    method EndScope()
      requires |scopes| > 0
      modifies this`scopes
      ensures scopes == old(scopes)[..|old(scopes)| - 1]
    {
      scopes := scopes[..|scopes| - 1];
    }

    /**
     * `declare`: nothing at top level; otherwise the name is marked undefined in the innermost
     * scope, after an error when that scope already holds it.
     */
    method Declare(name: Token)
      modifies this`scopes, reporter`parseErrors
      ensures scopes == Mark(old(scopes), name.lexeme, false)
      ensures reporter.parseErrors == old(reporter.parseErrors) + DeclareErrors(old(scopes), name)
    {
      if scopes == [] {
        return;
      }
      if name.lexeme in Top(scopes) {
        reporter.ParseError(name.position, RedeclarationMessage);
      }
      scopes := Mark(scopes, name.lexeme, false);
    }

    /** `define`: nothing at top level; otherwise the name is marked defined in the innermost scope. */
    method Define(name: Token)
      modifies this`scopes
      ensures scopes == Mark(old(scopes), name.lexeme, true)
    {
      if scopes == [] {
        return;
      }
      scopes := Mark(scopes, name.lexeme, true);
    }

    /** `resolveLocal`, as written: every matching scope is recorded, so the outermost one wins. */
    method ResolveLocalAsWritten(e: Expr, name: Token)
      modifies this`locals
      ensures locals == Recorded(old(locals), e, |scopes|, OutermostFrom(scopes, 0, name.lexeme))
    {
      var i := |scopes|;
      while i > 0
        invariant 0 <= i <= |scopes|
        invariant locals == Recorded(old(locals), e, |scopes|, OutermostFrom(scopes, i, name.lexeme))
      {
        i := i - 1;
        if name.lexeme in scopes[i] {
          locals := locals[e := |scopes| - 1 - i];
        }
      }
    }

    /** `resolveLocal` with the search stopping at the innermost scope that holds the name. */
    method ResolveLocal(e: Expr, name: Token)
      modifies this`locals
      ensures locals == Recorded(old(locals), e, |scopes|, InnermostIndex(scopes, name.lexeme))
    {
      var i := |scopes|;
      while i > 0
        invariant 0 <= i <= |scopes|
        invariant forall j :: i <= j < |scopes| ==> name.lexeme !in scopes[j]
        invariant locals == old(locals)
      {
        i := i - 1;
        if name.lexeme in scopes[i] {
          locals := locals[e := |scopes| - 1 - i];
          return;
        }
      }
    }

    /**
     * `resolve(expr)`: the scopes and function kind are as they were, the resolution map is
     * `ExprLocals` and the errors reported are `ExprErrors`. Reads and assignments use
     * `resolveLocal` as written.
     */
    method ResolveExpr(e: Expr)
      requires ExprClassFree(e)
      modifies this, reporter`parseErrors
      ensures scopes == old(scopes) && currentFunction == old(currentFunction)
      ensures locals == ExprLocals(e, scopes, old(locals))
      ensures reporter.parseErrors == old(reporter.parseErrors) + ExprErrors(e, scopes)
      decreases e, 1
    {
      match e {
        case Variable(name) =>
          assert ExprErrors(e, scopes) ==
            if ReadsUninitialized(scopes, name.lexeme) then [LoxError(name.position, OwnInitializerMessage)] else [];
          if ReadsUninitialized(scopes, name.lexeme) {
            reporter.ParseError(name.position, OwnInitializerMessage);
          }
          ResolveLocalAsWritten(e, name);
        case Assign(name, value) =>
          ResolveExpr(value);
          ResolveLocalAsWritten(e, name);
        case Lambda(f) =>
          ResolveFunction(f, InFunction);
        case BinaryOp(_, _, _) =>
          ResolvePair(e);
          AppendAssociates(old(reporter.parseErrors), ExprErrors(e.left, scopes), ExprErrors(e.right, scopes));
        case Call(callee, args) =>
          ResolveExpr(callee);
          ghost var errors := reporter.parseErrors;
          ResolveArguments(args);
          AppendAssociates(old(reporter.parseErrors), ExprErrors(callee, scopes), ArgErrors(args, scopes));
        case Grouping(inner) =>
          ResolveExpr(inner);
        case Literal(_) =>
        case Logical(_, _, _) =>
          ResolvePair(e);
          AppendAssociates(old(reporter.parseErrors), ExprErrors(e.left, scopes), ExprErrors(e.right, scopes));
        case UnaryOp(_, r) =>
          ResolveExpr(r);
      }
    }

    /** The two operands of a binary or logical expression, left first. */
    method ResolvePair(e: Expr)
      requires (e.BinaryOp? || e.Logical?) && ExprClassFree(e)
      modifies this, reporter`parseErrors
      ensures scopes == old(scopes) && currentFunction == old(currentFunction)
      ensures locals == ExprLocals(e.right, scopes, ExprLocals(e.left, scopes, old(locals)))
      ensures reporter.parseErrors ==
        old(reporter.parseErrors) + ExprErrors(e.left, scopes) + ExprErrors(e.right, scopes)
      decreases e, 0
    {
      ResolveExpr(e.left);
      ResolveExpr(e.right);
    }

    /** `expr.arguments.forEach(::resolve)`. */
    method ResolveArguments(args: seq<Expr>)
      requires forall a | a in args :: ExprClassFree(a)
      modifies this, reporter`parseErrors
      ensures scopes == old(scopes) && currentFunction == old(currentFunction)
      ensures locals == ArgLocals(args, scopes, old(locals))
      ensures reporter.parseErrors == old(reporter.parseErrors) + ArgErrors(args, scopes)
      decreases args
    {
      for i := 0 to |args|
        invariant scopes == old(scopes) && currentFunction == old(currentFunction)
        invariant locals == ArgLocals(args[..i], scopes, old(locals))
        invariant reporter.parseErrors == old(reporter.parseErrors) + ArgErrors(args[..i], scopes)
      {
        assert args[i] in args;
        assert args[..i + 1][..i] == args[..i];
        ResolveExpr(args[i]);
      }
      assert args[..|args|] == args;
    }

    /** One parameter of `resolveFunction`: `declare` then `define`. */
    method DeclareAndDefine(name: Token)
      modifies this`scopes, reporter`parseErrors
      ensures scopes == Mark(Mark(old(scopes), name.lexeme, false), name.lexeme, true)
      ensures reporter.parseErrors == old(reporter.parseErrors) + DeclareErrors(old(scopes), name)
    {
      Declare(name);
      Define(name);
    }

    /**
     * Declares and defines each parameter in the innermost scope, reporting each one whose name
     * that scope already holds or an earlier parameter has.
     */
    method DeclareParameters(params: seq<Token>)
      requires |scopes| > 0
      modifies this`scopes, reporter`parseErrors
      ensures scopes == DefineAll(old(scopes), ParamNames(params))
      ensures reporter.parseErrors == old(reporter.parseErrors) + ParamErrors(Top(old(scopes)), params)
    {
      DefineNothing(scopes);
      for i := 0 to |params|
        invariant scopes == DefineAll(old(scopes), ParamNames(params[..i]))
        invariant reporter.parseErrors == old(reporter.parseErrors) + ParamErrors(Top(old(scopes)), params[..i])
      {
        assert Top(scopes).Keys == Top(old(scopes)).Keys + ParamNames(params[..i]);
        assert params[..i + 1][..i] == params[..i] && params[..i + 1][i] == params[i];
        ghost var reported := DeclareErrors(scopes, params[i]);
        assert ParamErrors(Top(old(scopes)), params[..i + 1]) ==
          ParamErrors(Top(old(scopes)), params[..i]) + reported;
        AppendAssociates(old(reporter.parseErrors), ParamErrors(Top(old(scopes)), params[..i]), reported);
        DeclareAndDefine(params[i]);
        DefinePairStep(old(scopes), ParamNames(params[..i]), params[i].lexeme);
      }
      assert params[..|params|] == params;
    }

    /**
     * `resolveFunction`: the body is resolved in a new scope holding the parameters and with the
     * given function kind; both the scope stack and the function kind are restored afterwards.
     */
    method ResolveFunction(f: Function, kind: FunctionType)
      requires FunctionClassFree(f)
      modifies this, reporter`parseErrors
      ensures scopes == old(scopes) && currentFunction == old(currentFunction)
      ensures locals == FunctionLocals(f, scopes, old(locals))
      ensures reporter.parseErrors == old(reporter.parseErrors) + FunctionErrors(f, scopes, kind)
      decreases f, 3
    {
      ghost var bodyScopes := DefineAll(scopes + [map[]], ParamNames(f.params));
      assert bodyScopes[..|scopes|] == scopes;
      ghost var paramErrors := ParamErrors(map[], f.params);
      var enclosing := currentFunction;
      currentFunction := kind;
      BeginScope();
      DeclareParameters(f.params);
      assert reporter.parseErrors == old(reporter.parseErrors) + paramErrors;
      ResolveStatements(f.body);
      assert reporter.parseErrors == old(reporter.parseErrors) + paramErrors + StmtsErrors(f.body, bodyScopes, kind);
      AppendAssociates(old(reporter.parseErrors), paramErrors, StmtsErrors(f.body, bodyScopes, kind));
      EndScope();
      currentFunction := enclosing;
    }

    /**
     * `resolve(stmt)`: only the innermost scope changes, by the names the statement binds; the
     * resolution map is `StmtLocals` and the errors reported are `StmtErrors`.
     */
    method ResolveStmt(s: Stmt)
      requires StmtClassFree(s)
      modifies this, reporter`parseErrors
      ensures scopes == DefineAll(old(scopes), Binds(s))
      ensures currentFunction == old(currentFunction)
      ensures locals == StmtLocals(s, old(scopes), old(locals))
      ensures reporter.parseErrors == old(reporter.parseErrors) + StmtErrors(s, old(scopes), currentFunction)
      decreases s, 1
    {
      match s {
        case Block(_) =>
          ResolveBlock(s);
          DefineNothing(old(scopes));
        case Var(_, _) =>
          ResolveVar(s);
        case FunctionStmt(_) =>
          ResolveFunctionStmt(s);
        case Expression(e) =>
          ResolveExpr(e);
          DefineNothing(old(scopes));
        case If(_, _, _) =>
          ResolveIf(s);
        case PrintStmt(e) =>
          ResolveExpr(e);
          DefineNothing(old(scopes));
        case Return(_, _) =>
          ResolveReturn(s);
          DefineNothing(old(scopes));
        case While(condition, body) =>
          ghost var conditionErrors := ExprErrors(condition, scopes);
          ghost var bodyErrors := StmtErrors(body, scopes, currentFunction);
          assert StmtErrors(s, scopes, currentFunction) == conditionErrors + bodyErrors;
          ResolveExpr(condition);
          ResolveStmt(body);
          assert reporter.parseErrors == old(reporter.parseErrors) + conditionErrors + bodyErrors;
          AppendAssociates(old(reporter.parseErrors), conditionErrors, bodyErrors);
        case Break =>
          DefineNothing(old(scopes));
      }
    }

    /** A block: its statements in a scope of their own, which is dropped afterwards. */
    method ResolveBlock(s: Stmt)
      requires s.Block? && StmtClassFree(s)
      modifies this, reporter`parseErrors
      ensures scopes == old(scopes) && currentFunction == old(currentFunction)
      ensures locals == StmtLocals(s, scopes, old(locals))
      ensures reporter.parseErrors == old(reporter.parseErrors) + StmtErrors(s, scopes, currentFunction)
      decreases s, 0
    {
      ghost var inner := scopes + [map[]];
      assert StmtErrors(s, scopes, currentFunction) == StmtsErrors(s.statements, inner, currentFunction);
      assert StmtLocals(s, scopes, locals) == StmtsLocals(s.statements, inner, locals);
      assert DefineAll(inner, BindsAll(s.statements))[..|scopes|] == scopes;
      BeginScope();
      ResolveStatements(s.statements);
      assert reporter.parseErrors == old(reporter.parseErrors) + StmtErrors(s, old(scopes), currentFunction);
      assert locals == StmtLocals(s, old(scopes), old(locals));
      EndScope();
    }

    /** A function declaration: its name is declared and defined before its body is resolved. */
    method ResolveFunctionStmt(s: Stmt)
      requires s.FunctionStmt? && StmtClassFree(s)
      modifies this, reporter`parseErrors
      ensures scopes == DefineAll(old(scopes), Binds(s))
      ensures currentFunction == old(currentFunction)
      ensures locals == StmtLocals(s, old(scopes), old(locals))
      ensures reporter.parseErrors == old(reporter.parseErrors) + StmtErrors(s, old(scopes), currentFunction)
      decreases s, 0
    {
      var f := s.decl;
      ghost var defined := DefineAll(scopes, {f.name.lexeme});
      assert StmtErrors(s, scopes, currentFunction) ==
        DeclareErrors(scopes, f.name) + FunctionErrors(f, defined, InFunction);
      assert StmtLocals(s, scopes, locals) == FunctionLocals(f, defined, locals);
      DefineNothing(scopes);
      DefinePairStep(scopes, {}, f.name.lexeme);
      assert {} + {f.name.lexeme} == Binds(s);
      DeclareAndDefine(f.name);
      ghost var declared := reporter.parseErrors;
      ResolveFunction(f, InFunction);
      assert reporter.parseErrors == declared + FunctionErrors(f, defined, InFunction);
      AppendAssociates(old(reporter.parseErrors), DeclareErrors(old(scopes), f.name),
                       FunctionErrors(f, defined, InFunction));
    }

    /** An `if`: the condition, then the then-branch, then the else-branch in the scope it left. */
    method ResolveIf(s: Stmt)
      requires s.If? && StmtClassFree(s)
      modifies this, reporter`parseErrors
      ensures scopes == DefineAll(old(scopes), Binds(s))
      ensures currentFunction == old(currentFunction)
      ensures locals == StmtLocals(s, old(scopes), old(locals))
      ensures reporter.parseErrors == old(reporter.parseErrors) + StmtErrors(s, old(scopes), currentFunction)
      decreases s, 0
    {
      ghost var kind := currentFunction;
      ghost var thenLocals := StmtLocals(s.thenBranch, scopes, ExprLocals(s.condition, scopes, locals));
      ghost var conditionErrors := ExprErrors(s.condition, scopes);
      ghost var thenErrors := conditionErrors + StmtErrors(s.thenBranch, scopes, kind);
      ghost var elseScopes := DefineAll(scopes, Binds(s.thenBranch));
      ghost var elseErrors := if s.elseBranch.Some? then StmtErrors(s.elseBranch.value, elseScopes, kind) else [];
      ghost var elseLocals :=
        if s.elseBranch.Some? then StmtLocals(s.elseBranch.value, elseScopes, thenLocals) else thenLocals;
      assert StmtErrors(s, scopes, kind) == thenErrors + elseErrors;
      assert StmtLocals(s, scopes, locals) == elseLocals;
      ResolveExpr(s.condition);
      ghost var sc := scopes;
      ResolveStmt(s.thenBranch);
      assert reporter.parseErrors == old(reporter.parseErrors) + conditionErrors + StmtErrors(s.thenBranch, sc, kind);
      AppendAssociates(old(reporter.parseErrors), conditionErrors, StmtErrors(s.thenBranch, sc, kind));
      assert locals == thenLocals;
      if s.elseBranch.Some? {
        ResolveStmt(s.elseBranch.value);
        assert reporter.parseErrors == old(reporter.parseErrors) + thenErrors + elseErrors;
        AppendAssociates(old(reporter.parseErrors), thenErrors, elseErrors);
        DefineCompose(old(scopes), Binds(s.thenBranch), Binds(s.elseBranch.value));
      } else {
        assert thenErrors + elseErrors == thenErrors;
        assert Binds(s.thenBranch) + {} == Binds(s.thenBranch);
      }
    }

    /**
     * A `var` statement: the name is declared (undefined) while its initializer is resolved and
     * defined afterwards, so an initializer reading the same name is reported.
     */
    method ResolveVar(s: Stmt)
      requires s.Var? && StmtClassFree(s)
      modifies this, reporter`parseErrors
      ensures scopes == DefineAll(old(scopes), {s.name.lexeme})
      ensures currentFunction == old(currentFunction)
      ensures locals == StmtLocals(s, old(scopes), old(locals))
      ensures reporter.parseErrors == old(reporter.parseErrors) + StmtErrors(s, old(scopes), currentFunction)
      decreases s, 0
    {
      ghost var declared := Mark(scopes, s.name.lexeme, false);
      ghost var initErrors := if s.initializer.Some? then ExprErrors(s.initializer.value, declared) else [];
      assert StmtErrors(s, scopes, currentFunction) == DeclareErrors(scopes, s.name) + initErrors;
      assert StmtLocals(s, scopes, locals) ==
        if s.initializer.Some? then ExprLocals(s.initializer.value, declared, locals) else locals;
      Declare(s.name);
      if s.initializer.Some? {
        ResolveExpr(s.initializer.value);
      }
      assert reporter.parseErrors == old(reporter.parseErrors) + DeclareErrors(old(scopes), s.name) + initErrors;
      AppendAssociates(old(reporter.parseErrors), DeclareErrors(old(scopes), s.name), initErrors);
      assert reporter.parseErrors == old(reporter.parseErrors) + StmtErrors(s, old(scopes), currentFunction);
      assert locals == StmtLocals(s, old(scopes), old(locals));
      Define(s.name);
      DefineNothing(old(scopes));
      DefinePairStep(old(scopes), {}, s.name.lexeme);
      assert {} + {s.name.lexeme} == {s.name.lexeme};
    }

    /** A `return` statement: at top level it is reported before its value is resolved. */
    method ResolveReturn(s: Stmt)
      requires s.Return? && StmtClassFree(s)
      modifies this, reporter`parseErrors
      ensures scopes == old(scopes) && currentFunction == old(currentFunction)
      ensures locals == StmtLocals(s, scopes, old(locals))
      ensures reporter.parseErrors == old(reporter.parseErrors) + StmtErrors(s, scopes, currentFunction)
      decreases s, 0
    {
      ghost var reported := if currentFunction == TopLevel
        then [LoxError(s.keyword.position, TopLevelReturnMessage)] else [];
      ghost var valueErrors := if s.value.Some? then ExprErrors(s.value.value, scopes) else [];
      assert StmtErrors(s, scopes, currentFunction) == reported + valueErrors;
      assert StmtLocals(s, scopes, locals) ==
        if s.value.Some? then ExprLocals(s.value.value, scopes, locals) else locals;
      if currentFunction == TopLevel {
        reporter.ParseError(s.keyword.position, TopLevelReturnMessage);
      }
      assert reporter.parseErrors == old(reporter.parseErrors) + reported;
      if s.value.Some? {
        ResolveExpr(s.value.value);
      }
      assert reporter.parseErrors == old(reporter.parseErrors) + reported + valueErrors;
      AppendAssociates(old(reporter.parseErrors), reported, valueErrors);
    }

    /** `resolve(statements)`: the statements in order; their bindings accumulate in the innermost scope. */
    method ResolveStatements(ss: seq<Stmt>)
      requires StmtsClassFree(ss)
      modifies this, reporter`parseErrors
      ensures scopes == DefineAll(old(scopes), BindsAll(ss))
      ensures currentFunction == old(currentFunction)
      ensures locals == StmtsLocals(ss, old(scopes), old(locals))
      ensures reporter.parseErrors == old(reporter.parseErrors) + StmtsErrors(ss, old(scopes), currentFunction)
      decreases ss, 2
    {
      DefineNothing(old(scopes));
      for i := 0 to |ss|
        invariant scopes == DefineAll(old(scopes), BindsAll(ss[..i]))
        invariant currentFunction == old(currentFunction)
        invariant locals == StmtsLocals(ss[..i], old(scopes), old(locals))
        invariant reporter.parseErrors == old(reporter.parseErrors) + StmtsErrors(ss[..i], old(scopes), currentFunction)
      {
        ResolveNext(ss, i, old(scopes), old(locals), old(reporter.parseErrors));
      }
      assert ss[..|ss|] == ss;
    }

    /** One iteration of `resolve(statements)`: statement `i`, in the scopes the ones before it left. */
    method ResolveNext(ss: seq<Stmt>, i: nat, ghost scopes0: seq<Scope>, ghost locals0: map<Expr, nat>,
                       ghost errors0: seq<LoxError>)
      requires i < |ss| && StmtsClassFree(ss)
      requires scopes == DefineAll(scopes0, BindsAll(ss[..i]))
      requires locals == StmtsLocals(ss[..i], scopes0, locals0)
      requires reporter.parseErrors == errors0 + StmtsErrors(ss[..i], scopes0, currentFunction)
      modifies this, reporter`parseErrors
      ensures currentFunction == old(currentFunction)
      ensures scopes == DefineAll(scopes0, BindsAll(ss[..i + 1]))
      ensures locals == StmtsLocals(ss[..i + 1], scopes0, locals0)
      ensures reporter.parseErrors == errors0 + StmtsErrors(ss[..i + 1], scopes0, currentFunction)
      decreases ss, 1
    {
      assert ss[i] in ss;
      StatementsStep(ss, i, scopes0, locals0, currentFunction);
      ghost var here := scopes;
      ghost var errors := reporter.parseErrors;
      ghost var resolved := locals;
      ResolveStmt(ss[i]);
      assert locals == StmtLocals(ss[i], here, resolved);
      assert reporter.parseErrors == errors + StmtErrors(ss[i], here, currentFunction);
      AppendAssociates(errors0, StmtsErrors(ss[..i], scopes0, currentFunction), StmtErrors(ss[i], here, currentFunction));
      DefineCompose(scopes0, BindsAll(ss[..i]), Binds(ss[i]));
    }
  }

  /** One more statement of `resolve(statements)`: what `StmtsLocals` and `StmtsErrors` add for it. */
  lemma StatementsStep(ss: seq<Stmt>, i: nat, scopes: seq<Scope>, locals: map<Expr, nat>, kind: FunctionType)
    requires i < |ss|
    ensures BindsAll(ss[..i + 1]) == BindsAll(ss[..i]) + Binds(ss[i])
    ensures StmtsLocals(ss[..i + 1], scopes, locals) ==
      StmtLocals(ss[i], DefineAll(scopes, BindsAll(ss[..i])), StmtsLocals(ss[..i], scopes, locals))
    ensures StmtsErrors(ss[..i + 1], scopes, kind) ==
      StmtsErrors(ss[..i], scopes, kind) + StmtErrors(ss[i], DefineAll(scopes, BindsAll(ss[..i])), kind)
  {
    assert ss[..i + 1][..i] == ss[..i] && ss[..i + 1][i] == ss[i];
  }

  lemma AppendAssociates(a: seq<LoxError>, b: seq<LoxError>, c: seq<LoxError>)
    ensures a + b + c == a + (b + c)
  {
  }

  /** Declaring then defining a name is defining it. */
  lemma DefinePairStep(scopes: seq<Scope>, names: set<string>, name: string)
    ensures Mark(Mark(DefineAll(scopes, names), name, false), name, true) == DefineAll(scopes, names + {name})
  {
    if scopes != [] {
      var n := |scopes|;
      var before := DefineAll(scopes, names);
      assert Mark(Mark(before, name, false), name, true)[..n - 1] == scopes[..n - 1];
      assert Top(Mark(Mark(before, name, false), name, true)) == Defined(Top(scopes), names + {name});
    }
  }

  lemma DefineNothing(scopes: seq<Scope>)
    ensures DefineAll(scopes, {}) == scopes
  {
    if scopes != [] {
      assert Defined(Top(scopes), {}) == Top(scopes);
    }
  }

  lemma DefineCompose(scopes: seq<Scope>, a: set<string>, b: set<string>)
    ensures DefineAll(DefineAll(scopes, a), b) == DefineAll(scopes, a + b)
  {
    if scopes != [] {
      var n := |scopes|;
      assert DefineAll(DefineAll(scopes, a), b)[..n - 1] == scopes[..n - 1];
      assert Defined(Defined(Top(scopes), a), b) == Defined(Top(scopes), a + b);
    }
  }

  /** Declaring a name makes a read of it in the same scope an error; defining it clears that. */
  lemma DeclaredUntilDefined(scopes: seq<Scope>, name: string, other: string)
    requires |scopes| > 0 && other != name
    ensures ReadsUninitialized(Mark(scopes, name, false), name)
    ensures !ReadsUninitialized(Mark(Mark(scopes, name, false), name, true), name)
    ensures ReadsUninitialized(Mark(scopes, name, false), other) == ReadsUninitialized(scopes, other)
  {
  }

  /**
   * The scope `resolveLocal` records as written (the outermost holder of the name) is the one
   * lexical scoping asks for (the innermost holder) exactly when no two scopes hold the name.
   */
  lemma AsWrittenAgreesIffUnshadowed(scopes: seq<Scope>, name: string)
    ensures OutermostFrom(scopes, 0, name) == InnermostIndex(scopes, name) <==>
      forall i, j :: 0 <= i < j < |scopes| && name in scopes[i] ==> name !in scopes[j]
  {
    var outer := OutermostFrom(scopes, 0, name);
    var inner := InnermostIndex(scopes, name);
    if outer.Some? {
      assert inner.Some?;
      if outer == inner {
        forall i, j | 0 <= i < j < |scopes| && name in scopes[i]
          ensures name !in scopes[j]
        {
          assert outer.value <= i;
        }
      } else {
        assert outer.value < inner.value;
      }
    } else {
      assert inner.None?;
    }
  }

  /** Two nested scopes both declaring `a`: as written the outer one (1 hop) is recorded, not the inner. */
  lemma AsWrittenRecordsShadowedScope(e: Expr)
    ensures var scopes := [map["a" := true], map["a" := true]];
      Recorded(map[], e, 2, OutermostFrom(scopes, 0, "a"))[e] == 1 &&
      Recorded(map[], e, 2, InnermostIndex(scopes, "a"))[e] == 0
  {
    var scopes := [map["a" := true], map["a" := true]];
    assert "a" in scopes[0];
    assert "a" in Top(scopes);
  }

  // What the resolution map says about each entry.

  /** The entry for `x` is the same in `r` as in `locals`, or absent from both. */
  predicate Keeps(r: map<Expr, nat>, locals: map<Expr, nat>, x: Expr)
  {
    (x in r <==> x in locals) && (x in r ==> r[x] == locals[x])
  }

  /** The map after one site `x` is resolved in `scopes`, searching as written. */
  function Resolved(locals: map<Expr, nat>, x: Expr, scopes: seq<Scope>): map<Expr, nat>
  {
    Recorded(locals, x, |scopes|, OutermostFrom(scopes, 0, SiteName(x)))
  }

  /** Resolving an expression leaves every entry but its own sites' as it was, and adds no other. */
  lemma {:induction false} ExprKeepsOthers(e: Expr, scopes: seq<Scope>, locals: map<Expr, nat>, x: Expr)
    requires x !in ExprSites(e)
    ensures Keeps(ExprLocals(e, scopes, locals), locals, x)
    decreases e
  {
    match e
    case BinaryOp(l, _, r) =>
      ExprKeepsOthers(l, scopes, locals, x);
      ExprKeepsOthers(r, scopes, ExprLocals(l, scopes, locals), x);
    case UnaryOp(_, r) => ExprKeepsOthers(r, scopes, locals, x);
    case Grouping(inner) => ExprKeepsOthers(inner, scopes, locals, x);
    case Literal(_) =>
    case Variable(_) =>
    case Assign(_, v) => ExprKeepsOthers(v, scopes, locals, x);
    case Call(callee, args) =>
      ExprKeepsOthers(callee, scopes, locals, x);
      ArgKeepsOthers(args, scopes, ExprLocals(callee, scopes, locals), x);
    case Logical(l, _, r) =>
      ExprKeepsOthers(l, scopes, locals, x);
      ExprKeepsOthers(r, scopes, ExprLocals(l, scopes, locals), x);
    case Lambda(f) => FunctionKeepsOthers(f, scopes, locals, x);
  }

  lemma {:induction false} ArgKeepsOthers(args: seq<Expr>, scopes: seq<Scope>, locals: map<Expr, nat>, x: Expr)
    requires x !in ArgSites(args)
    ensures Keeps(ArgLocals(args, scopes, locals), locals, x)
    decreases args
  {
    if args != [] {
      var init := args[..|args| - 1];
      ArgKeepsOthers(init, scopes, locals, x);
      ExprKeepsOthers(args[|args| - 1], scopes, ArgLocals(init, scopes, locals), x);
    }
  }

  lemma {:induction false} FunctionKeepsOthers(f: Function, scopes: seq<Scope>, locals: map<Expr, nat>, x: Expr)
    requires x !in FunctionSites(f)
    ensures Keeps(FunctionLocals(f, scopes, locals), locals, x)
    decreases f
  {
    StmtsKeepsOthers(f.body, DefineAll(scopes + [map[]], ParamNames(f.params)), locals, x);
  }

  lemma {:induction false} StmtKeepsOthers(s: Stmt, scopes: seq<Scope>, locals: map<Expr, nat>, x: Expr)
    requires x !in StmtSites(s)
    ensures Keeps(StmtLocals(s, scopes, locals), locals, x)
    decreases s
  {
    match s
    case Block(ss) => StmtsKeepsOthers(ss, scopes + [map[]], locals, x);
    case ClassStmt(_, _, _) =>
    case Expression(e) => ExprKeepsOthers(e, scopes, locals, x);
    case FunctionStmt(f) => FunctionKeepsOthers(f, DefineAll(scopes, {f.name.lexeme}), locals, x);
    case If(c, t, e) =>
      ExprKeepsOthers(c, scopes, locals, x);
      var afterCondition := ExprLocals(c, scopes, locals);
      StmtKeepsOthers(t, scopes, afterCondition, x);
      if e.Some? {
        StmtKeepsOthers(e.value, DefineAll(scopes, Binds(t)), StmtLocals(t, scopes, afterCondition), x);
      }
    case PrintStmt(e) => ExprKeepsOthers(e, scopes, locals, x);
    case Return(_, v) =>
      if v.Some? {
        ExprKeepsOthers(v.value, scopes, locals, x);
      }
    case Var(name, init) =>
      if init.Some? {
        ExprKeepsOthers(init.value, Mark(scopes, name.lexeme, false), locals, x);
      }
    case While(c, b) =>
      ExprKeepsOthers(c, scopes, locals, x);
      StmtKeepsOthers(b, scopes, ExprLocals(c, scopes, locals), x);
    case Break =>
  }

  lemma {:induction false} StmtsKeepsOthers(ss: seq<Stmt>, scopes: seq<Scope>, locals: map<Expr, nat>, x: Expr)
    requires x !in StmtsSites(ss)
    ensures Keeps(StmtsLocals(ss, scopes, locals), locals, x)
    decreases ss
  {
    if ss != [] {
      var init := ss[..|ss| - 1];
      StmtsKeepsOthers(init, scopes, locals, x);
      StmtKeepsOthers(ss[|ss| - 1], DefineAll(scopes, BindsAll(init)), StmtsLocals(init, scopes, locals), x);
    }
  }

  /** An expression with no lambda in it: all its sites are resolved in the same scopes. */
  predicate LambdaFree(e: Expr)
    decreases e
  {
    match e
    case BinaryOp(l, _, r) => LambdaFree(l) && LambdaFree(r)
    case UnaryOp(_, r) => LambdaFree(r)
    case Grouping(inner) => LambdaFree(inner)
    case Literal(_) => true
    case Variable(_) => true
    case Assign(_, v) => LambdaFree(v)
    case Call(callee, args) => LambdaFree(callee) && forall a | a in args :: LambdaFree(a)
    case Logical(l, _, r) => LambdaFree(l) && LambdaFree(r)
    case Lambda(_) => false
  }

  /**
   * In a lambda-free expression each site ends up with the hop count of the outermost scope
   * holding its name, or with the entry it had when no scope holds the name.
   */
  lemma {:induction false} ExprRecordsEachSite(e: Expr, scopes: seq<Scope>, locals: map<Expr, nat>, x: Expr)
    requires LambdaFree(e) && x in ExprSites(e)
    ensures Keeps(ExprLocals(e, scopes, locals), Resolved(locals, x, scopes), x)
    decreases e, 1
  {
    match e
    case BinaryOp(_, _, _) => PairRecordsEachSite(e, scopes, locals, x);
    case UnaryOp(_, r) => ExprRecordsEachSite(r, scopes, locals, x);
    case Grouping(inner) => ExprRecordsEachSite(inner, scopes, locals, x);
    case Variable(_) =>
    case Assign(_, v) =>
      if x in ExprSites(v) {
        ExprRecordsEachSite(v, scopes, locals, x);
      } else {
        ExprKeepsOthers(v, scopes, locals, x);
      }
    case Call(callee, args) =>
      var afterCallee := ExprLocals(callee, scopes, locals);
      if x in ExprSites(callee) {
        ExprRecordsEachSite(callee, scopes, locals, x);
        if x in ArgSites(args) {
          ArgRecordsEachSite(args, scopes, afterCallee, x);
        } else {
          ArgKeepsOthers(args, scopes, afterCallee, x);
        }
      } else {
        ExprKeepsOthers(callee, scopes, locals, x);
        ArgRecordsEachSite(args, scopes, afterCallee, x);
      }
    case Logical(_, _, _) => PairRecordsEachSite(e, scopes, locals, x);
  }

  /** Two operands resolved one after the other, `x` a site of either. */
  lemma {:induction false} PairRecordsEachSite(e: Expr, scopes: seq<Scope>, locals: map<Expr, nat>, x: Expr)
    requires (e.BinaryOp? || e.Logical?) && LambdaFree(e) && x in ExprSites(e)
    ensures Keeps(ExprLocals(e, scopes, locals), Resolved(locals, x, scopes), x)
    decreases e, 0
  {
    var l, r := e.left, e.right;
    var afterLeft := ExprLocals(l, scopes, locals);
    if x in ExprSites(l) {
      ExprRecordsEachSite(l, scopes, locals, x);
      if x in ExprSites(r) {
        ExprRecordsEachSite(r, scopes, afterLeft, x);
      } else {
        ExprKeepsOthers(r, scopes, afterLeft, x);
      }
    } else {
      ExprKeepsOthers(l, scopes, locals, x);
      ExprRecordsEachSite(r, scopes, afterLeft, x);
    }
  }

  lemma {:induction false} ArgRecordsEachSite(args: seq<Expr>, scopes: seq<Scope>, locals: map<Expr, nat>, x: Expr)
    requires (forall a | a in args :: LambdaFree(a)) && x in ArgSites(args)
    ensures Keeps(ArgLocals(args, scopes, locals), Resolved(locals, x, scopes), x)
    decreases args, 2
  {
    var init, last := args[..|args| - 1], args[|args| - 1];
    assert last in args;
    assert forall a | a in init :: a in args;
    var afterInit := ArgLocals(init, scopes, locals);
    if x in ArgSites(init) {
      ArgRecordsEachSite(init, scopes, locals, x);
      if x in ExprSites(last) {
        ExprRecordsEachSite(last, scopes, afterInit, x);
      } else {
        ExprKeepsOthers(last, scopes, afterInit, x);
      }
    } else {
      ArgKeepsOthers(init, scopes, locals, x);
      ExprRecordsEachSite(last, scopes, afterInit, x);
    }
  }

  /** A name is among the parameters' names exactly when some parameter has it. */
  lemma {:induction false} ParamNamesHold(params: seq<Token>, n: string)
    ensures n in ParamNames(params) <==> exists i :: 0 <= i < |params| && params[i].lexeme == n
    decreases params
  {
    if params != [] {
      var init := params[..|params| - 1];
      ParamNamesHold(init, n);
      if n in ParamNames(init) {
        var i :| 0 <= i < |init| && init[i].lexeme == n;
        assert params[i] == init[i];
      }
      if exists i :: 0 <= i < |params| && params[i].lexeme == n {
        var i :| 0 <= i < |params| && params[i].lexeme == n;
        if i < |init| {
          assert init[i] == params[i];
        }
      }
    }
  }

  /**
   * Declaring the parameters reports nothing exactly when no parameter's name is already in the
   * scope and no two parameters share a name.
   */
  lemma {:induction false} ParamErrorsIffRepeated(top: Scope, params: seq<Token>)
    ensures ParamErrors(top, params) == [] <==>
      (forall i :: 0 <= i < |params| ==> params[i].lexeme !in top) &&
      (forall i, j :: 0 <= i < j < |params| ==> params[i].lexeme != params[j].lexeme)
    decreases params
  {
    if params != [] {
      var n := |params|;
      var init, last := params[..n - 1], params[n - 1];
      ParamErrorsIffRepeated(top, init);
      ParamNamesHold(init, last.lexeme);
      assert forall i :: 0 <= i < n - 1 ==> init[i] == params[i];
    }
  }

  /** `fun f(a, a) {}`: the second `a` is reported once, at its own position. */
  lemma RepeatedParameterReported(first: Token, second: Token)
    requires first.lexeme == second.lexeme
    ensures ParamErrors(map[], [first, second]) == [LoxError(second.position, RedeclarationMessage)]
  {
    assert [first, second][..1] == [first];
    assert [first][..0] == [];
    assert ParamNames([first]) == {first.lexeme};
    assert ParamErrors(map[], [first]) == [];
  }

  /**
   * `var a = a;`: in a local scope the read is reported after any redeclaration error; at top
   * level nothing is reported.
   */
  lemma OwnInitializerReported(name: Token, read: Token, scopes: seq<Scope>, kind: FunctionType)
    requires read.lexeme == name.lexeme
    ensures |scopes| > 0 ==>
      StmtErrors(Stmt.Var(name, Some(Variable(read))), scopes, kind) ==
        DeclareErrors(scopes, name) + [LoxError(read.position, OwnInitializerMessage)]
    ensures StmtErrors(Stmt.Var(name, Some(Variable(read))), [], kind) == []
  {
    if |scopes| > 0 {
      DeclaredUntilDefined(scopes, name.lexeme, name.lexeme + "'");
    }
  }

  /** `{ var a; var a; }` reports the second `a` once; `var a; var a;` at top level reports nothing. */
  lemma LocalRedeclarationReported(first: Token, second: Token, scopes: seq<Scope>, kind: FunctionType)
    requires first.lexeme == second.lexeme
    ensures StmtErrors(Block([Stmt.Var(first, None), Stmt.Var(second, None)]), scopes, kind) ==
      [LoxError(second.position, RedeclarationMessage)]
    ensures StmtsErrors([Stmt.Var(first, None), Stmt.Var(second, None)], [], kind) == []
  {
    var ss := [Stmt.Var(first, None), Stmt.Var(second, None)];
    assert ss[..1] == [ss[0]] && ss[..1][..0] == [];
    assert BindsAll(ss[..1]) == {first.lexeme};
    var inner := scopes + [map[]];
    DefineNothing(inner);
    assert StmtsErrors(ss[..1], inner, kind) == [] + StmtErrors(ss[0], inner, kind);
    assert StmtErrors(ss[0], inner, kind) == [];
    var after := DefineAll(inner, {first.lexeme});
    assert first.lexeme in Top(after);
    assert StmtErrors(ss[1], after, kind) == [LoxError(second.position, RedeclarationMessage)];
    assert StmtsErrors(ss, inner, kind) == StmtsErrors(ss[..1], inner, kind) + StmtErrors(ss[1], after, kind);
    assert StmtsErrors(ss[..1], [], kind) == [] + StmtErrors(ss[0], DefineAll([], {}), kind);
    assert StmtsErrors(ss, [], kind) == StmtsErrors(ss[..1], [], kind) + StmtErrors(ss[1], DefineAll([], {first.lexeme}), kind);
  }

  /**
   * `return;` at top level is reported at its keyword, but inside `fun f() { return; }` it is
   * not: the function kind changes for the body.
   */
  lemma ReturnReportedOnlyAtTopLevel(name: Token, keyword: Token)
    ensures StmtErrors(Stmt.Return(keyword, None), [], TopLevel) == [LoxError(keyword.position, TopLevelReturnMessage)]
    ensures StmtErrors(FunctionStmt(Function(name, [], [Stmt.Return(keyword, None)])), [], TopLevel) == []
  {
    var body := [Stmt.Return(keyword, None)];
    assert body[..0] == [];
    assert StmtsErrors(body, DefineAll([] + [map[]], ParamNames([])), InFunction) == [];
  }

  /**
   * `{ var a; { var a; print a; } }` at top level: the pass records hop 1 for the read, the outer
   * `a`, where the innermost holder is 0 hops away.
   */
  lemma PassRecordsShadowedScope(outer: Token, inner: Token, read: Token)
    requires outer.lexeme == "a" && inner.lexeme == "a" && read.lexeme == "a"
    ensures var program := Block([Stmt.Var(outer, None), Block([Stmt.Var(inner, None), PrintStmt(Variable(read))])]);
      StmtLocals(program, [], map[]) == map[Variable(read) := 1]
  {
    var innerBlock := [Stmt.Var(inner, None), PrintStmt(Variable(read))];
    var outerBlock := [Stmt.Var(outer, None), Block(innerBlock)];
    var defined: Scope := map["a" := true];
    assert Defined(map[], {"a"}) == defined;
    assert outerBlock[..1] == [outerBlock[0]] && outerBlock[..1][..0] == [];
    assert BindsAll(outerBlock[..1]) == {"a"};
    assert StmtsLocals(outerBlock[..1], [map[]], map[]) == map[];
    var middle := DefineAll([map[]], {"a"}) + [map[]];
    assert middle == [defined, map[]];
    assert innerBlock[..1] == [innerBlock[0]] && innerBlock[..1][..0] == [];
    assert BindsAll(innerBlock[..1]) == {"a"};
    assert StmtsLocals(innerBlock[..1], middle, map[]) == map[];
    var last := DefineAll(middle, {"a"});
    assert last == [defined, defined];
    assert OutermostFrom(last, 0, "a") == Some(0);
    assert InnermostIndex(last, "a") == Some(1);
    assert StmtsLocals(innerBlock, middle, map[]) == StmtLocals(innerBlock[1], last, map[]);
    assert StmtLocals(innerBlock[1], last, map[]) == map[Variable(read) := 1];
    assert StmtsLocals(outerBlock, [map[]], map[]) ==
      StmtLocals(outerBlock[1], DefineAll([map[]], {"a"}), map[]);
  }
}
