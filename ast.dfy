/**
 * The syntax tree (src/main/lox/ast/Expr.kt, Stmt.kt, Function.kt). Expr.kt declares only the
 * first four expression forms; the others are the ones the parser, printers, resolver and
 * interpreter refer to.
 */
module Ast {
  import opened Wrappers
  import opened Tokens

  datatype Expr =
    | BinaryOp(left: Expr, operator: Token, right: Expr)
    | UnaryOp(operator: Token, right: Expr)
    | Grouping(expression: Expr)
    | Literal(lit: Literal)
    | Variable(name: Token)
    | Assign(name: Token, value: Expr)
    | Call(callee: Expr, arguments: seq<Expr>)
    | Logical(left: Expr, operator: Token, right: Expr)
    | Lambda(decl: Function)

  /** What a named function declaration and a lambda share (the `ast.Function` interface). */
  datatype Function = Function(name: Token, params: seq<Token>, body: seq<Stmt>)

  datatype Stmt =
    | Block(statements: seq<Stmt>)
    | ClassStmt(name: Token, superclass: Option<Expr>, methods: seq<Function>)
    | Expression(expression: Expr)
    | FunctionStmt(decl: Function)
    | If(condition: Expr, thenBranch: Stmt, elseBranch: Option<Stmt>)
    | PrintStmt(expression: Expr)
    | Return(keyword: Token, value: Option<Expr>)
    | Var(name: Token, initializer: Option<Expr>)
    | While(condition: Expr, body: Stmt)
    | Break
}
