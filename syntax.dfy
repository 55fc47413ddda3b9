/**
 * The syntax trees of Lox: the expressions the parser builds and the
 * statements the interpreter executes. Both are closed sums of the node
 * kinds the repository declares; a node refers to its children directly,
 * so trees are finite and acyclic.
 */
module Syntax {
  import opened Wrappers
  import opened Tokens

  datatype Expr =
    | Assign(name: Token, value: Expr)
    | Binary(left: Expr, operator: Token, right: Expr)
    | Call(callee: Expr, paren: Token, arguments: seq<Expr>)
    | Get(target: Expr, name: Token)
    | Grouping(expression: Expr)
    | Literal(literal: LiteralValue)
    | Logical(left: Expr, operator: Token, right: Expr)
    | Set(target: Expr, name: Token, value: Expr)
    | Super(keyword: Token, methodName: Token)
    | This(keyword: Token)
    | Unary(operator: Token, right: Expr)
    | Variable(name: Token)

  /** A function declaration: its name, its parameters and the statements of its body. */
  datatype FunctionDecl = FunctionDecl(name: Token, params: seq<Token>, body: seq<Stmt>)

  datatype Stmt =
    | Block(statements: seq<Stmt>)
    | Break
    | Expression(expression: Expr)
    | Function(decl: FunctionDecl)
    | If(condition: Expr, thenBranch: Stmt, elseBranch: Option<Stmt>)
    | Var(name: Token, initializer: Option<Expr>)
    | Print(expression: Expr)
    | Return(keyword: Token, value: Expr)
    | While(condition: Expr, body: Stmt)

  /** The number of nodes the evaluator may visit in an expression (call arguments are never evaluated). */
  function ExprSize(e: Expr): nat {
    match e
    case Assign(_, v) => 1 + ExprSize(v)
    case Binary(l, _, r) => 1 + ExprSize(l) + ExprSize(r)
    case Call(c, _, _) => 1 + ExprSize(c)
    case Logical(l, _, r) => 1 + ExprSize(l) + ExprSize(r)
    case Unary(_, r) => 1 + ExprSize(r)
    case _ => 1
  }

  /** The number of nodes the executor may visit in a statement, not counting the bodies of declared functions. */
  function StmtSize(s: Stmt): nat {
    match s
    case Block(ss) => 1 + StmtsSize(ss)
    case Expression(e) => 1 + ExprSize(e)
    case If(c, t, el) => 1 + ExprSize(c) + StmtSize(t) + (if el.Some? then StmtSize(el.value) else 0)
    case Var(_, init) => 1 + (if init.Some? then ExprSize(init.value) else 0)
    case Print(e) => 1 + ExprSize(e)
    case Return(_, v) => 1 + ExprSize(v)
    case While(c, b) => 1 + ExprSize(c) + StmtSize(b)
    case _ => 1
  }

  function StmtsSize(ss: seq<Stmt>): nat {
    if ss == [] then 0 else StmtSize(ss[0]) + StmtsSize(ss[1..])
  }

  /** A statement of a list is no larger than the list. */
  lemma {:induction false} StmtsSizeBound(ss: seq<Stmt>, k: nat)
    requires k < |ss|
    ensures StmtSize(ss[k]) <= StmtsSize(ss)
    decreases k
  {
    if k > 0 {
      StmtsSizeBound(ss[1..], k - 1);
    }
  }
}
