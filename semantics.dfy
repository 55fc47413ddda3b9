/**
 * What running a program does, as functions over a store of frames: the
 * reference the interpreter's methods are proved against. Every function
 * takes a budget of calls and loop iterations (`fuel`) and ends with
 * `Exhausted` when it runs out, so that a program that runs forever still
 * has a meaning.
 *
 * `globals` is the frame a called function's frame is enclosed by: the
 * global frame at top level, and none inside a called function's body,
 * which runs in an interpreter of its own whose globals were never set.
 */
module Semantics {
  import opened Wrappers
  import opened Tokens
  import opened Syntax
  import opened Values
  import opened Operators
  import Frames
  import Environments

  /** The frames made so far and the values printed so far. */
  datatype State = State(store: Frames.Store, output: seq<Value>)

  /** The current frame and the globals, if any, are among the frames. */
  predicate Ready(st: State, globals: Option<nat>, env: nat) {
    env < |st.store| && (globals.Some? ==> globals.value < |st.store|)
  }

  /** Running from `before` to `after` only adds frames. */
  predicate Grows(before: State, after: State) {
    |before.store| <= |after.store|
  }

  /** An outcome that is not normal, carried over to another result type. */
  function Abrupt<T, U>(o: Outcome<T>): Outcome<U>
    requires !o.Normal?
  {
    match o
    case Raised(f) => Raised(f)
    case Panicked => Panicked
    case Exhausted => Exhausted
  }

  /** The evaluator's wrapping of an operand's failure: errors are wrapped, crashes pass through. */
  function Wrapped<T>(o: Outcome<Value>): Outcome<T>
    requires !o.Normal?
  {
    if o.Raised? then Raised(ParseFailure(Some(o.failure))) else Abrupt(o)
  }

  /** A statement whose error is ignored: errors become normal completion, crashes pass through. */
  function Ignored(o: Outcome<()>): Outcome<()> {
    if o.Panicked? || o.Exhausted? then o else Normal(())
  }

  /** The parameters bound to the arguments in order; a later parameter of the same name wins. */
  function Bind(params: seq<Token>, args: seq<Value>): (m: map<string, Value>)
    requires |params| == |args|
    ensures m.Keys == set p | p in params :: p.lexeme
  {
    if params == [] then map[]
    else Bind(params[..|params| - 1], args[..|args| - 1])[params[|params| - 1].lexeme := args[|args| - 1]]
  }

  /** Call arguments are passed as the expressions written, unevaluated. */
  function Arguments(es: seq<Expr>): seq<Value> {
    seq(|es|, i requires 0 <= i < |es| => Code(es[i]))
  }

  function Define(st: State, env: nat, name: string, value: Value): State
    requires env < |st.store|
  {
    st.(store := Frames.Define(st.store, env, name, value))
  }

  function ArityMessage(expected: nat, got: nat): string {
    "Expected " + Decimal(expected) + " arguments but got " + Decimal(got) + ".\n"
  }

  // ---------------------------------------------------------------------
  // Expressions

  function Eval(st: State, globals: Option<nat>, env: nat, e: Expr, fuel: nat): (r: (State, Outcome<Value>))
    requires Ready(st, globals, env)
    ensures Grows(st, r.0)
    ensures r.1.Raised? ==> !r.1.failure.ReturnSignal?
    decreases fuel, ExprSize(e), 1
  {
    match e
    case Assign(name, value) => EvalAssign(st, globals, env, name, value, fuel)
    case Binary(left, operator, right) => EvalBinary(st, globals, env, left, operator, right, fuel)
    case Call(callee, paren, arguments) => EvalCall(st, globals, env, callee, paren, arguments, fuel)
    case Literal(v) => (st, Normal(LiteralToValue(v)))
    case Logical(left, operator, right) => EvalLogical(st, globals, env, left, operator, right, fuel)
    case Unary(operator, right) => EvalUnary(st, globals, env, operator, right, fuel)
    case Variable(name) =>
      var v := Frames.Lookup(st.store, env, name);
      (st, if v.Ok? then Normal(v.value) else Raised(v.error))
    case _ => (st, Raised(ParseFailure(Some(Plain("unreachable code error")))))
  }

  /** Assignment: the value, then the store's assignment; its error, if any, is the outcome. */
  function EvalAssign(st: State, globals: Option<nat>, env: nat, name: Token, value: Expr, fuel: nat): (r: (State, Outcome<Value>))
    requires Ready(st, globals, env)
    ensures Grows(st, r.0)
    ensures r.1.Raised? ==> !r.1.failure.ReturnSignal?
    decreases fuel, ExprSize(Assign(name, value)), 0
  {
    var (s1, o) := Eval(st, globals, env, value, fuel);
    if !o.Normal? then (s1, o)
    else
      var (store, err) := Frames.Assign(s1.store, env, name, o.value);
      if err.Some? then (s1.(store := store), Raised(err.value)) else (s1.(store := store), o)
  }

  /** A binary operator: both operands, left first, with their failures wrapped, then the operator. */
  function EvalBinary(st: State, globals: Option<nat>, env: nat, left: Expr, operator: Token, right: Expr, fuel: nat): (r: (State, Outcome<Value>))
    requires Ready(st, globals, env)
    ensures Grows(st, r.0)
    ensures r.1.Raised? ==> !r.1.failure.ReturnSignal?
    decreases fuel, ExprSize(Binary(left, operator, right)), 0
  {
    var (s1, l) := Eval(st, globals, env, left, fuel);
    if !l.Normal? then (s1, Wrapped(l))
    else
      var (s2, r) := Eval(s1, globals, env, right, fuel);
      if !r.Normal? then (s2, Wrapped(r))
      else (s2, ApplyBinary(operator, l.value, r.value))
  }

  /** A call: the callee, then the call of its value on the unevaluated arguments. */
  function EvalCall(st: State, globals: Option<nat>, env: nat, callee: Expr, paren: Token, arguments: seq<Expr>, fuel: nat): (r: (State, Outcome<Value>))
    requires Ready(st, globals, env)
    ensures Grows(st, r.0)
    ensures r.1.Raised? ==> !r.1.failure.ReturnSignal?
    decreases fuel, ExprSize(Call(callee, paren, arguments)), 0
  {
    var (s1, c) := Eval(st, globals, env, callee, fuel);
    if !c.Normal? then (s1, c)
    else CallValue(s1, globals, c.value, paren, Arguments(arguments), fuel)
  }

  /** `or` yields its left operand; any other logical operator yields its right one once the left evaluates. */
  function EvalLogical(st: State, globals: Option<nat>, env: nat, left: Expr, operator: Token, right: Expr, fuel: nat): (r: (State, Outcome<Value>))
    requires Ready(st, globals, env)
    ensures Grows(st, r.0)
    ensures r.1.Raised? ==> !r.1.failure.ReturnSignal?
    decreases fuel, ExprSize(Logical(left, operator, right)), 0
  {
    var (s1, l) := Eval(st, globals, env, left, fuel);
    if !l.Normal? || operator.kind == OR then (s1, l)
    else Eval(s1, globals, env, right, fuel)
  }

  /** A unary operator: the operand, with its failure wrapped, then the operator. */
  function EvalUnary(st: State, globals: Option<nat>, env: nat, operator: Token, right: Expr, fuel: nat): (r: (State, Outcome<Value>))
    requires Ready(st, globals, env)
    ensures Grows(st, r.0)
    ensures r.1.Raised? ==> !r.1.failure.ReturnSignal?
    decreases fuel, ExprSize(Unary(operator, right)), 0
  {
    var (s1, r) := Eval(st, globals, env, right, fuel);
    if !r.Normal? then (s1, Wrapped(r))
    else (s1, ApplyUnary(operator, r.value))
  }

  /**
   * A call of a value with arguments: functions and classes can be called,
   * with as many arguments as their arity; anything else is an error at
   * the closing parenthesis. Calling a class runs its `init`, if it has
   * one, and makes an instance whatever `init` ends with.
   */
  function CallValue(st: State, globals: Option<nat>, callee: Value, paren: Token, args: seq<Value>, fuel: nat): (r: (State, Outcome<Value>))
    requires globals.Some? ==> globals.value < |st.store|
    ensures Grows(st, r.0)
    ensures r.1.Raised? ==> !r.1.failure.ReturnSignal?
    decreases fuel, 0, 2
  {
    match callee
    case Fn(f) =>
      if |args| != FunctionArity(f) then (st, Raised(RuntimeError(paren, ArityMessage(FunctionArity(f), |args|))))
      else Invoke(st, globals, f, args, fuel)
    case Class(klass) =>
      if |args| != ClassArity(klass) then (st, Raised(RuntimeError(paren, ArityMessage(ClassArity(klass), |args|))))
      else Construct(st, globals, klass, args, fuel)
    case _ => (st, Raised(RuntimeError(paren, "Can only call functions and classes.")))
  }

  /** A call of a class: runs the nearest `init`, if any, on the arguments, and makes an instance. */
  function Construct(st: State, globals: Option<nat>, klass: LoxClass, args: seq<Value>, fuel: nat): (r: (State, Outcome<Value>))
    requires globals.Some? ==> globals.value < |st.store|
    requires |args| == ClassArity(klass)
    ensures Grows(st, r.0)
    ensures r.1.Normal? ==> r.1.value == Instance(klass)
    ensures !r.1.Raised?
    decreases fuel, 0, 1
  {
    var init := FindMethod(klass, "init");
    if init.Err? then (st, Normal(Instance(klass)))
    else
      var (s1, o) := Invoke(st, globals, init.value, args, fuel);
      (s1, if o.Panicked? || o.Exhausted? then Abrupt(o) else Normal(Instance(klass)))
  }

  /**
   * Running a function's body in a new frame, enclosed by `globals`, that
   * binds the parameters to the arguments. The body runs without globals.
   * A call's value is what a `return` signalled, and nil otherwise; any
   * other error of the body is dropped.
   */
  function Invoke(st: State, globals: Option<nat>, f: LoxFunction, args: seq<Value>, fuel: nat): (r: (State, Outcome<Value>))
    requires globals.Some? ==> globals.value < |st.store|
    requires |args| == FunctionArity(f)
    ensures Grows(st, r.0)
    ensures !r.1.Raised? && (r.1.Normal? ==> r.1.value == Nil)
    decreases fuel, 0, 0
  {
    if fuel == 0 then (st, Exhausted)
    else
      var (s2, o) := ExecAll(Entered(st, globals, f.declaration.params, args), None, |st.store|, f.declaration.body, fuel - 1);
      (s2, Returned(o))
  }

  /** The state on entry to a call: a new last frame, enclosed by `globals`, binds the parameters to the arguments. */
  function Entered(st: State, globals: Option<nat>, params: seq<Token>, args: seq<Value>): State
    requires |params| == |args|
  {
    st.(store := st.store + [Frames.Frame(Bind(params, args), globals)])
  }

  /** A call's value: what a `return` signalled, nil after any other error or none; crashes pass through. */
  function Returned(o: Outcome<()>): Outcome<Value> {
    match o
    case Raised(ReturnSignal(v)) => Normal(v)
    case Raised(_) => Normal(Nil)
    case Normal(_) => Normal(Nil)
    case Panicked => Panicked
    case Exhausted => Exhausted
  }

  // ---------------------------------------------------------------------
  // Statements

  function Exec(st: State, globals: Option<nat>, env: nat, s: Stmt, fuel: nat): (r: (State, Outcome<()>))
    requires Ready(st, globals, env)
    ensures r.1.Normal? ==> r.1 == Normal(())
    ensures Grows(st, r.0)
    ensures r.1.Raised? ==> !r.1.failure.ReturnSignal?
    decreases fuel, StmtSize(s), 1
  {
    match s
    case Block(ss) => ExecBlock(st, globals, env, ss, fuel)
    case Expression(e) =>
      var (s1, o) := Eval(st, globals, env, e, fuel);
      (s1, if o.Normal? then Normal(()) else Abrupt(o))
    case Function(decl) => (Define(st, env, decl.name.lexeme, Fn(LoxFunction(decl))), Normal(()))
    case If(condition, thenBranch, elseBranch) => ExecIf(st, globals, env, condition, thenBranch, elseBranch, fuel)
    case Var(name, initializer) => ExecVar(st, globals, env, name, initializer, fuel)
    case Print(e) => ExecPrint(st, globals, env, e, fuel)
    case While(condition, body) => ExecWhile(st, globals, env, condition, body, fuel)
    case _ => (st, Normal(()))
  }

  /** A block: its statements in a new frame enclosed by the current one. */
  function ExecBlock(st: State, globals: Option<nat>, env: nat, ss: seq<Stmt>, fuel: nat): (r: (State, Outcome<()>))
    requires Ready(st, globals, env)
    ensures r.1.Normal? ==> r.1 == Normal(())
    ensures Grows(st, r.0)
    ensures r.1.Raised? ==> !r.1.failure.ReturnSignal?
    decreases fuel, StmtSize(Block(ss)), 0
  {
    var s1 := st.(store := st.store + [Frames.Frame(map[], Some(env))]);
    ExecAll(s1, globals, |st.store|, ss, fuel)
  }

  /** An `if`: the condition, then the branch it selects, whose errors are ignored. */
  function ExecIf(st: State, globals: Option<nat>, env: nat, condition: Expr, thenBranch: Stmt, elseBranch: Option<Stmt>, fuel: nat): (r: (State, Outcome<()>))
    requires Ready(st, globals, env)
    ensures r.1.Normal? ==> r.1 == Normal(())
    ensures Grows(st, r.0)
    ensures r.1.Raised? ==> !r.1.failure.ReturnSignal?
    decreases fuel, StmtSize(If(condition, thenBranch, elseBranch)), 0
  {
    var (s1, c) := Eval(st, globals, env, condition, fuel);
    if !c.Normal? then (s1, Abrupt(c))
    else if IsTruthy(c.value) then
      var (s2, o) := Exec(s1, globals, env, thenBranch, fuel);
      (s2, Ignored(o))
    else if elseBranch.Some? then
      var (s2, o) := Exec(s1, globals, env, elseBranch.value, fuel);
      (s2, Ignored(o))
    else (s1, Normal(()))
  }

  /** A declaration: binds the name in the current frame to the initializer's value, or to nil. */
  function ExecVar(st: State, globals: Option<nat>, env: nat, name: Token, initializer: Option<Expr>, fuel: nat): (r: (State, Outcome<()>))
    requires Ready(st, globals, env)
    ensures r.1.Normal? ==> r.1 == Normal(())
    ensures Grows(st, r.0)
    ensures r.1.Raised? ==> !r.1.failure.ReturnSignal?
    decreases fuel, StmtSize(Var(name, initializer)), 0
  {
    if initializer.None? then (Define(st, env, name.lexeme, Nil), Normal(()))
    else
      var (s1, o) := Eval(st, globals, env, initializer.value, fuel);
      if !o.Normal? then (s1, Abrupt(o))
      else (Define(s1, env, name.lexeme, o.value), Normal(()))
  }

  /** A `print`: the value is added to the output. */
  function ExecPrint(st: State, globals: Option<nat>, env: nat, e: Expr, fuel: nat): (r: (State, Outcome<()>))
    requires Ready(st, globals, env)
    ensures r.1.Normal? ==> r.1 == Normal(())
    ensures Grows(st, r.0)
    ensures r.1.Raised? ==> !r.1.failure.ReturnSignal?
    decreases fuel, StmtSize(Print(e)), 0
  {
    var (s1, o) := Eval(st, globals, env, e, fuel);
    if !o.Normal? then (s1, Abrupt(o))
    else (s1.(output := s1.output + [o.value]), Normal(()))
  }

  /** The statements in order, up to the first that does not complete normally. */
  function ExecAll(st: State, globals: Option<nat>, env: nat, ss: seq<Stmt>, fuel: nat): (r: (State, Outcome<()>))
    requires Ready(st, globals, env)
    ensures r.1.Normal? ==> r.1 == Normal(())
    ensures Grows(st, r.0)
    ensures r.1.Raised? ==> !r.1.failure.ReturnSignal?
    decreases fuel, StmtsSize(ss), 2
  {
    if ss == [] then (st, Normal(()))
    else
      var (s1, o) := Exec(st, globals, env, ss[0], fuel);
      if !o.Normal? then (s1, o)
      else ExecAll(s1, globals, env, ss[1..], fuel)
  }

  /**
   * A loop: while the condition evaluates to a truthy value, run the body.
   * Each iteration spends one unit of fuel.
   */
  function ExecWhile(st: State, globals: Option<nat>, env: nat, condition: Expr, body: Stmt, fuel: nat): (r: (State, Outcome<()>))
    requires Ready(st, globals, env)
    ensures r.1.Normal? ==> r.1 == Normal(())
    ensures Grows(st, r.0)
    ensures r.1.Raised? ==> !r.1.failure.ReturnSignal?
    decreases fuel, ExprSize(condition) + StmtSize(body), 2
  {
    if fuel == 0 then (st, Exhausted)
    else
      var step := WhileIteration(st, globals, env, condition, body, fuel);
      if step.2 then ExecWhile(step.0, globals, env, condition, body, fuel - 1) else (step.0, step.1)
  }

  /**
   * One iteration of a loop: the condition, then the body if the condition
   * is truthy, and whether the loop goes on. An error in the condition ends
   * the loop as if the condition were false; an error in the body is
   * ignored.
   */
  function WhileIteration(st: State, globals: Option<nat>, env: nat, condition: Expr, body: Stmt, fuel: nat): (r: (State, Outcome<()>, bool))
    requires Ready(st, globals, env)
    ensures r.1.Normal? ==> r.1 == Normal(())
    ensures Grows(st, r.0)
    ensures !r.1.Raised? && (r.2 ==> r.1.Normal?)
    decreases fuel, ExprSize(condition) + StmtSize(body), 1
  {
    var (s1, c) := Eval(st, globals, env, condition, fuel);
    WhileAfterCondition(s1, globals, env, c, body, fuel)
  }

  /**
   * The rest of an iteration once the condition gave `c`: a crash ends the
   * loop, an error or a falsy value ends it quietly, and otherwise the body
   * runs and only a crash in it ends the loop.
   */
  function WhileAfterCondition(st: State, globals: Option<nat>, env: nat, c: Outcome<Value>, body: Stmt, fuel: nat): (r: (State, Outcome<()>, bool))
    requires Ready(st, globals, env)
    ensures r.1.Normal? ==> r.1 == Normal(())
    ensures Grows(st, r.0)
    ensures !r.1.Raised? && (r.2 <==> c.Normal? && IsTruthy(c.value) && r.1.Normal?)
    decreases fuel, StmtSize(body), 2
  {
    if c.Panicked? || c.Exhausted? then (st, Abrupt(c), false)
    else if c.Raised? || !IsTruthy(c.value) then (st, Normal(()), false)
    else
      var (s2, o) := Exec(st, globals, env, body, fuel);
      if o.Panicked? || o.Exhausted? then (s2, o, false) else (s2, Normal(()), true)
  }

  // ---------------------------------------------------------------------
  // Properties

  /** `or` yields its left operand's outcome whatever it is: the right operand is never evaluated. */
  lemma OrReturnsLeft(st: State, globals: Option<nat>, env: nat, left: Expr, operator: Token, right: Expr, fuel: nat)
    requires Ready(st, globals, env) && operator.kind == OR
    ensures Eval(st, globals, env, Logical(left, operator, right), fuel) == Eval(st, globals, env, left, fuel)
  {
  }

  /** `and` evaluates its right operand whenever the left one evaluates, truthy or not, and yields that. */
  lemma AndEvaluatesRight(st: State, globals: Option<nat>, env: nat, left: Expr, operator: Token, right: Expr, fuel: nat)
    requires Ready(st, globals, env) && operator.kind != OR
    ensures var (s1, l) := Eval(st, globals, env, left, fuel);
            l.Normal? ==> Eval(st, globals, env, Logical(left, operator, right), fuel) == Eval(s1, globals, env, right, fuel)
  {
  }

  /**
   * Assignment evaluates its value, then rebinds the name where it is
   * bound and yields the value, which a lookup then finds. An unbound name
   * changes nothing; it is the error "Undefined variable" only in a frame
   * with no enclosing frame, and elsewhere the assignment yields the value
   * as if it had succeeded.
   */
  lemma AssignExpr(st: State, globals: Option<nat>, env: nat, name: Token, value: Expr, fuel: nat)
    requires Ready(st, globals, env)
    ensures var (s1, o) := Eval(st, globals, env, value, fuel);
            var (s2, r) := Eval(st, globals, env, Assign(name, value), fuel);
            && (!o.Normal? ==> s2 == s1 && r == o)
            && (o.Normal? && Frames.Lookup(s1.store, env, name).Ok? ==>
                  r == o && Frames.Lookup(s2.store, env, name) == Ok(o.value))
            && (o.Normal? && Frames.Lookup(s1.store, env, name).Err? ==>
                  s2 == s1 && r == if Frames.Up(s1.store, env).None? then Raised(Environments.Undefined(name)) else o)
  {
    var (s1, o) := Eval(st, globals, env, value, fuel);
    if o.Normal? {
      Frames.AssignThenLookup(s1.store, env, name, o.value);
      Frames.AssignHolder(s1.store, env, name, o.value);
    }
  }

  /**
   * A variable declaration binds the name in the current frame to its
   * initializer's value, or to nil without one; a lookup then finds it.
   */
  lemma VarDeclares(st: State, globals: Option<nat>, env: nat, name: Token, initializer: Option<Expr>, fuel: nat)
    requires Ready(st, globals, env)
    ensures var (s2, r) := Exec(st, globals, env, Var(name, initializer), fuel);
            initializer.None? ==> r == Normal(()) && Frames.Lookup(s2.store, env, name) == Ok(Nil)
    ensures initializer.Some? ==>
              var (s1, o) := Eval(st, globals, env, initializer.value, fuel);
              var (s2, r) := Exec(st, globals, env, Var(name, initializer), fuel);
              && (o.Normal? ==> r == Normal(()) && Frames.Lookup(s2.store, env, name) == Ok(o.value))
              && (!o.Normal? ==> s2 == s1 && r.Raised? == o.Raised?)
  {
    if initializer.None? {
      Frames.DefineThenLookup(st.store, env, name, Nil);
    } else {
      var (s1, o) := Eval(st, globals, env, initializer.value, fuel);
      if o.Normal? {
        Frames.DefineThenLookup(s1.store, env, name, o.value);
      }
    }
  }

  /** The errors of an `if` statement's branches are dropped: it fails only when its condition does. */
  lemma IfIgnoresBranchErrors(st: State, globals: Option<nat>, env: nat, condition: Expr, thenBranch: Stmt, elseBranch: Option<Stmt>, fuel: nat)
    requires Ready(st, globals, env)
    ensures Exec(st, globals, env, If(condition, thenBranch, elseBranch), fuel).1.Raised? <==>
              Eval(st, globals, env, condition, fuel).1.Raised?
  {
  }

  /** A loop never ends with an error: errors of its condition end it quietly and errors of its body are dropped. */
  lemma {:induction false} WhileNeverRaises(st: State, globals: Option<nat>, env: nat, condition: Expr, body: Stmt, fuel: nat)
    requires Ready(st, globals, env)
    ensures !ExecWhile(st, globals, env, condition, body, fuel).1.Raised?
    decreases fuel
  {
    if fuel > 0 {
      var (s1, _, again) := WhileIteration(st, globals, env, condition, body, fuel);
      if again {
        WhileNeverRaises(s1, globals, env, condition, body, fuel - 1);
      }
    }
  }

  /**
   * Running two lists of statements one after the other is running the
   * first, and then, only if it completed normally, the second from where
   * the first left off.
   */
  lemma {:induction false} ExecAllAppend(st: State, globals: Option<nat>, env: nat, ss: seq<Stmt>, tt: seq<Stmt>, fuel: nat)
    requires Ready(st, globals, env)
    ensures var (s1, o) := ExecAll(st, globals, env, ss, fuel);
            ExecAll(st, globals, env, ss + tt, fuel) == if o.Normal? then ExecAll(s1, globals, env, tt, fuel) else (s1, o)
    decreases |ss|
  {
    if ss == [] {
      assert ss + tt == tt;
    } else {
      assert (ss + tt)[0] == ss[0] && (ss + tt)[1..] == ss[1..] + tt;
      var (s1, o) := Exec(st, globals, env, ss[0], fuel);
      if o.Normal? {
        ExecAllAppend(s1, globals, env, ss[1..], tt, fuel);
      }
    }
  }

  /**
   * One step of running a list of statements: when the first `k` complete
   * normally, the first `k + 1` end as the next statement does, and if
   * that one does not complete normally, so does the whole list.
   */
  lemma ExecAllStep(st: State, globals: Option<nat>, env: nat, ss: seq<Stmt>, k: nat, fuel: nat)
    requires Ready(st, globals, env) && k < |ss|
    requires ExecAll(st, globals, env, ss[..k], fuel).1 == Normal(())
    ensures var mid := ExecAll(st, globals, env, ss[..k], fuel).0;
            var (s1, o) := Exec(mid, globals, env, ss[k], fuel);
            && (o.Normal? ==> ExecAll(st, globals, env, ss[..k + 1], fuel) == (s1, o))
            && (!o.Normal? ==> ExecAll(st, globals, env, ss, fuel) == (s1, o))
  {
    var mid := ExecAll(st, globals, env, ss[..k], fuel).0;
    ExecAllAppend(st, globals, env, ss[..k], [ss[k]], fuel);
    assert ss[..k + 1] == ss[..k] + [ss[k]];
    assert [ss[k]][0] == ss[k] && [ss[k]][1..] == [];
    var (s1, o) := Exec(mid, globals, env, ss[k], fuel);
    if o.Normal? {
      assert ExecAll(s1, globals, env, [], fuel) == (s1, Normal(()));
    } else {
      ExecAllAppend(st, globals, env, ss[..k + 1], ss[k + 1..], fuel);
      assert ss[..k + 1] + ss[k + 1..] == ss;
    }
  }

  /** Binding one more parameter adds it over the earlier ones. */
  lemma BindStep(params: seq<Token>, args: seq<Value>, k: nat)
    requires |params| == |args| && k < |params|
    ensures Bind(params[..k + 1], args[..k + 1]) == Bind(params[..k], args[..k])[params[k].lexeme := args[k]]
  {
    assert params[..k + 1][..k] == params[..k] && args[..k + 1][..k] == args[..k];
  }

  /** Each parameter is bound to the argument at its position, unless a later parameter has the same name. */
  lemma {:induction false} BindParameters(params: seq<Token>, args: seq<Value>, i: nat)
    requires |params| == |args| && i < |params|
    requires forall j :: i < j < |params| ==> params[j].lexeme != params[i].lexeme
    ensures Bind(params, args)[params[i].lexeme] == args[i]
    decreases |params|
  {
    if i < |params| - 1 {
      BindParameters(params[..|params| - 1], args[..|args| - 1], i);
    }
  }

  /**
   * In the frame a call enters, a lookup of a parameter finds the argument
   * at its position, unless a later parameter has the same name.
   */
  lemma EnteredBinds(st: State, globals: Option<nat>, params: seq<Token>, args: seq<Value>, k: nat)
    requires |params| == |args| && k < |params|
    requires forall j :: k < j < |params| ==> params[j].lexeme != params[k].lexeme
    ensures Frames.Lookup(Entered(st, globals, params, args).store, |st.store|, params[k]) == Ok(args[k])
  {
    BindParameters(params, args, k);
    assert params[k] in params;
  }

  /** Entering a call leaves what every earlier frame sees unchanged, and the output too. */
  lemma EnteredKeeps(st: State, globals: Option<nat>, params: seq<Token>, args: seq<Value>, i: nat, name: Token)
    requires |params| == |args| && i < |st.store|
    ensures var s1 := Entered(st, globals, params, args);
            s1.output == st.output && i < |s1.store| && Frames.Lookup(s1.store, i, name) == Frames.Lookup(st.store, i, name)
  {
    var s1 := Entered(st, globals, params, args);
    assert s1.store[..i + 1] == st.store[..i + 1];
    Frames.LookupPrefix(s1.store, st.store, i, name);
  }

  /** Only functions and classes can be called. */
  lemma CallNonCallable(st: State, globals: Option<nat>, callee: Value, paren: Token, args: seq<Value>, fuel: nat)
    requires globals.Some? ==> globals.value < |st.store|
    requires !callee.Fn? && !callee.Class?
    ensures CallValue(st, globals, callee, paren, args, fuel) == (st, Raised(RuntimeError(paren, "Can only call functions and classes.")))
  {
  }

  /**
   * A call with the wrong number of arguments fails at the closing
   * parenthesis, naming the expected and the actual count in decimal,
   * before anything runs.
   */
  lemma CallArity(st: State, globals: Option<nat>, callee: Value, paren: Token, args: seq<Value>, fuel: nat)
    requires globals.Some? ==> globals.value < |st.store|
    requires callee.Fn? || callee.Class?
    ensures var arity := if callee.Fn? then FunctionArity(callee.fn) else ClassArity(callee.klass);
            |args| != arity ==>
              CallValue(st, globals, callee, paren, args, fuel) == (st, Raised(RuntimeError(paren, ArityMessage(arity, |args|))))
  {
  }

  /**
   * A function call that finishes yields nil, since no statement signals a
   * return; a class call that finishes yields an instance of the class.
   */
  lemma CallResults(st: State, globals: Option<nat>, callee: Value, paren: Token, args: seq<Value>, fuel: nat)
    requires globals.Some? ==> globals.value < |st.store|
    ensures var r := CallValue(st, globals, callee, paren, args, fuel).1;
            && (callee.Fn? && r.Normal? ==> r.value == Nil)
            && (callee.Class? && r.Normal? ==> r.value == Instance(callee.klass))
            && (callee.Class? && |args| == 0 && FindMethod(callee.klass, "init").Err? ==> r == Normal(Instance(callee.klass)))
  {
    if callee.Class? && |args| == 0 && FindMethod(callee.klass, "init").Err? {
      assert ClassArity(callee.klass) == 0;
    }
  }
}
