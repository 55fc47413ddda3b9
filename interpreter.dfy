/**
 * The tree-walking interpreter: an object holding the global frame and the
 * current frame, which executes statements and evaluates expressions by
 * changing the bindings of heap-allocated frames. Every method is proved
 * to do exactly what the reference semantics says, on a ghost copy of the
 * frames kept in step with the heap.
 */
module Interpreting {
  import opened Wrappers
  import opened Tokens
  import opened Syntax
  import opened Values
  import opened Operators
  import opened Environments
  import Frames
  import Sem = Semantics

  /** The serial number of a frame's enclosing frame. */
  ghost function Parent(f: Environment): Option<nat> {
    if f.enclosing == null then None else Some(f.enclosing.id)
  }

  /** Frames listed by serial number: each is valid and is enclosed by an earlier one. */
  ghost predicate Shaped(fs: seq<Environment>) {
    forall i :: 0 <= i < |fs| ==>
      && fs[i].Valid()
      && fs[i].id == i
      && (fs[i].enclosing != null ==> fs[i].enclosing.id < i && fs[fs[i].enclosing.id] == fs[i].enclosing)
  }

  /** Every frame of the chain from a listed frame is listed. */
  lemma {:induction false} ChainListed(fs: seq<Environment>, i: nat)
    requires Shaped(fs) && i < |fs|
    ensures forall f :: f in fs[i].Repr ==> f in fs
    decreases i
  {
    if fs[i].enclosing != null {
      ChainListed(fs, fs[i].enclosing.id);
    }
  }

  /** The store holds each frame's bindings and link. */
  ghost predicate Mirrored(fs: seq<Environment>, store: Frames.Store)
    reads fs
  {
    && |store| == |fs|
    && forall i :: 0 <= i < |fs| ==> store[i] == Frames.Frame(fs[i].values, Parent(fs[i]))
  }

  class Interpreter {
    /** The frame called functions' frames are enclosed by; null inside a called function's body. */
    var globals: Environment?
    /** The frame statements currently run in. */
    var environment: Environment
    /** The values printed so far, in order. */
    var output: seq<Value>
    /** Every frame made so far, by serial number. */
    ghost var frames: seq<Environment>
    /** The frames' contents and links as a value. */
    ghost var store: Frames.Store

    /** The frame is one of this interpreter's, under its serial number. */
    ghost predicate Holds(f: Environment)
      reads this
    {
      f.id < |frames| && frames[f.id] == f
    }

    ghost predicate Inv()
      reads this, frames
    {
      && Shaped(frames)
      && Mirrored(frames, store)
      && Holds(environment)
      && (globals != null ==> Holds(globals))
    }

    /** Frames are only added, and only new ones. */
    twostate predicate Grew()
      reads this
    {
      old(frames) <= frames && forall i :: |old(frames)| <= i < |frames| ==> fresh(frames[i])
    }

    /** The current frame and the globals are as they were, and frames were only added. */
    twostate predicate Kept()
      reads this
    {
      environment == old(environment) && globals == old(globals) && Grew()
    }

    /** The reference semantics' view of the globals. */
    ghost function GlobalIndex(): Option<nat>
      reads this
    {
      if globals == null then None else Some(globals.id)
    }

    /** The reference semantics' view of the whole state. */
    ghost function State(): Sem.State
      reads this
    {
      Sem.State(store, output)
    }

    /** The interpreter is in the state, with the outcome, that the reference semantics gives. */
    ghost predicate Reached<T>(r: (Sem.State, Outcome<T>), o: Outcome<T>)
      reads this
    {
      State() == r.0 && o == r.1
    }

    /** The frames' chains lead to earlier frames only, so every lookup ends. */
    lemma Linked()
      requires Inv()
      ensures Frames.Linked(store)
    {
    }

    /** `NewInterpreter`: a single global frame, with no bindings, that is also the current frame. */
    constructor ()
      ensures Inv()
      ensures globals == environment && environment.values == map[] && environment.enclosing == null
      ensures store == [Frames.Frame(map[], None)] && output == []
    {
      var global := new Environment(map[], null, 0);
      globals := global;
      environment := global;
      output := [];
      frames := [global];
      store := [Frames.Frame(map[], None)];
    }

    /** Makes a frame with no bindings, enclosed by `enclosing`, and registers it. */
    method PushFrame(enclosing: Environment?) returns (f: Environment)
      requires Inv() && (enclosing != null ==> Holds(enclosing))
      modifies this
      ensures Inv() && fresh(f) && Holds(f)
      ensures environment == old(environment) && globals == old(globals) && output == old(output)
      ensures frames == old(frames) + [f]
      ensures store == old(store) + [Frames.Frame(map[], if enclosing == null then None else Some(enclosing.id))]
    {
      f := new Environment(map[], enclosing, |frames|);
      frames := frames + [f];
      store := store + [Frames.Frame(map[], Parent(f))];
    }

    /** `define` in frame `f`, mirrored in the store. */
    method DefineIn(f: Environment, name: string, value: Value)
      requires Inv() && Holds(f)
      modifies this, f`values
      ensures Inv()
      ensures environment == old(environment) && globals == old(globals) && output == old(output) && frames == old(frames)
      ensures store == Frames.Define(old(store), f.id, name, value)
    {
      f.Define(name, value);
      store := Frames.Define(store, f.id, name, value);
    }

    /** The frame's `get` answers as a lookup in the store. */
    lemma {:induction false} GetMirrors(i: nat, name: Token)
      requires Inv() && i < |frames|
      ensures frames[i].Valid() && frames[i].Get(name) == Frames.Lookup(store, i, name)
      decreases i
    {
      if name.lexeme !in frames[i].values && frames[i].enclosing != null {
        GetMirrors(frames[i].enclosing.id, name);
      }
    }

    /** The frame's nearest holder of a name is the store's. */
    lemma {:induction false} HolderMirrors(i: nat, name: string)
      requires Inv() && i < |frames|
      ensures var h := Frames.Holder(store, i, name);
              frames[i].Valid() && frames[i].Holder(name) == if h.Some? then frames[h.value] else null
      decreases i
    {
      if name !in frames[i].values && frames[i].enclosing != null {
        HolderMirrors(frames[i].enclosing.id, name);
      }
    }

    /** `assign` from the current frame, mirrored in the store. */
    method AssignHere(name: Token, value: Value) returns (err: Option<Failure>)
      requires Inv()
      modifies this, frames
      ensures Inv()
      ensures environment == old(environment) && globals == old(globals) && output == old(output) && frames == old(frames)
      ensures (store, err) == Frames.Assign(old(store), environment.id, name, value)
    {
      var env := environment;
      ghost var h := Frames.Holder(store, env.id, name.lexeme);
      ghost var after := Frames.Assign(store, env.id, name, value);
      HolderMirrors(env.id, name.lexeme);
      Frames.AssignHolder(store, env.id, name, value);
      Frames.AssignKeepsLinks(store, env.id, name, value);
      ChainListed(frames, env.id);
      err := env.Assign(name, value);
      store := after.0;
      forall i | 0 <= i < |frames|
        ensures store[i] == Frames.Frame(frames[i].values, Parent(frames[i]))
      {
        if h.Some? {
          assert frames[i] == frames[h.value] <==> i == h.value;
        }
      }
    }

    // -------------------------------------------------------------------
    // Running a program

    /** `interpret`: the statements in order, up to the first that fails. */
    method Interpret(statements: seq<Stmt>, fuel: nat) returns (o: Outcome<()>)
      requires Inv()
      modifies this, frames
      ensures Inv() && Kept()
      ensures Reached(Sem.ExecAll(old(State()), old(GlobalIndex()), environment.id, statements, fuel), o)
    {
      ghost var start := State();
      o := Normal(());
      var k := 0;
      while k < |statements| && o.Normal?
        invariant k <= |statements| && Inv() && Kept()
        invariant o.Normal? ==> Reached(Sem.ExecAll(start, GlobalIndex(), environment.id, statements[..k], fuel), o)
        invariant !o.Normal? ==> Reached(Sem.ExecAll(start, GlobalIndex(), environment.id, statements, fuel), o)
      {
        o := ExecuteNext(start, statements, k, fuel);
        k := k + 1;
      }
      assert o.Normal? ==> statements[..k] == statements;
    }

    /** `executeBlock`: the statements in the given frame, which is current until they end, however they end. */
    method ExecuteBlock(statements: seq<Stmt>, env: Environment, fuel: nat) returns (o: Outcome<()>)
      requires Inv() && Holds(env)
      modifies this, frames
      ensures Inv() && Kept()
      ensures Reached(Sem.ExecAll(old(State()), old(GlobalIndex()), env.id, statements, fuel), o)
      decreases fuel, StmtsSize(statements), 3
    {
      ghost var start := State();
      var previous := environment;
      environment := env;
      o := Normal(());
      var k := 0;
      while k < |statements| && o.Normal?
        invariant k <= |statements| && Inv() && environment == env && globals == old(globals) && Grew()
        invariant o.Normal? ==> Reached(Sem.ExecAll(start, GlobalIndex(), env.id, statements[..k], fuel), o)
        invariant !o.Normal? ==> Reached(Sem.ExecAll(start, GlobalIndex(), env.id, statements, fuel), o)
      {
        o := ExecuteNext(start, statements, k, fuel);
        k := k + 1;
      }
      assert o.Normal? ==> statements[..k] == statements;
      environment := previous;
    }

    /** The next statement of a list, run after the earlier ones all completed normally. */
    method ExecuteNext(ghost start: Sem.State, statements: seq<Stmt>, k: nat, fuel: nat) returns (o: Outcome<()>)
      requires Inv() && k < |statements| && Sem.Ready(start, GlobalIndex(), environment.id)
      requires Reached(Sem.ExecAll(start, GlobalIndex(), environment.id, statements[..k], fuel), Normal(()))
      modifies this, frames
      ensures Inv() && Kept()
      ensures o.Normal? ==> Reached(Sem.ExecAll(start, GlobalIndex(), environment.id, statements[..k + 1], fuel), o)
      ensures !o.Normal? ==> Reached(Sem.ExecAll(start, GlobalIndex(), environment.id, statements, fuel), o)
      decreases fuel, StmtsSize(statements), 2
    {
      StmtsSizeBound(statements, k);
      Sem.ExecAllStep(start, GlobalIndex(), environment.id, statements, k, fuel);
      o := Execute(statements[k], fuel);
    }

    /** `execute`: one statement in the current frame. */
    method Execute(s: Stmt, fuel: nat) returns (o: Outcome<()>)
      requires Inv()
      modifies this, frames
      ensures Inv() && Kept()
      ensures Reached(Sem.Exec(old(State()), old(GlobalIndex()), environment.id, s, fuel), o)
      decreases fuel, StmtSize(s), 1
    {
      match s
      case Block(statements) =>
        o := ExecuteBlockStmt(statements, fuel);
      case Expression(e) =>
        var r := Evaluate(e, fuel);
        o := if r.Normal? then Normal(()) else Sem.Abrupt(r);
      case Function(decl) =>
        DefineIn(environment, decl.name.lexeme, Fn(LoxFunction(decl)));
        o := Normal(());
      case If(condition, thenBranch, elseBranch) =>
        o := ExecuteIf(condition, thenBranch, elseBranch, fuel);
      case Print(e) =>
        o := ExecutePrint(e, fuel);
      case While(condition, body) =>
        o := ExecuteWhile(condition, body, fuel);
      case Var(name, initializer) =>
        o := ExecuteVar(name, initializer, fuel);
      case Break => o := Normal(());
      case Return(_, _) => o := Normal(());
    }

    /** A block statement: a new frame enclosed by the current one, and the statements in it. */
    method ExecuteBlockStmt(statements: seq<Stmt>, fuel: nat) returns (o: Outcome<()>)
      requires Inv()
      modifies this, frames
      ensures Inv() && Kept()
      ensures Reached(Sem.ExecBlock(old(State()), old(GlobalIndex()), environment.id, statements, fuel), o)
      decreases fuel, StmtSize(Block(statements)), 0
    {
      var frame := PushFrame(environment);
      o := ExecuteBlock(statements, frame, fuel);
    }

    /** An `if` statement: the branch runs, and its error is dropped. */
    method ExecuteIf(condition: Expr, thenBranch: Stmt, elseBranch: Option<Stmt>, fuel: nat) returns (o: Outcome<()>)
      requires Inv()
      modifies this, frames
      ensures Inv() && Kept()
      ensures Reached(Sem.ExecIf(old(State()), old(GlobalIndex()), environment.id, condition, thenBranch, elseBranch, fuel), o)
      decreases fuel, StmtSize(If(condition, thenBranch, elseBranch)), 0
    {
      var c := Evaluate(condition, fuel);
      if !c.Normal? {
        return Sem.Abrupt(c);
      }
      if IsTruthy(c.value) {
        var r := Execute(thenBranch, fuel);
        o := Sem.Ignored(r);
      } else if elseBranch.Some? {
        var r := Execute(elseBranch.value, fuel);
        o := Sem.Ignored(r);
      } else {
        o := Normal(());
      }
    }

    /** A `print` statement: the value is added to the output. */
    method ExecutePrint(e: Expr, fuel: nat) returns (o: Outcome<()>)
      requires Inv()
      modifies this, frames
      ensures Inv() && Kept()
      ensures Reached(Sem.ExecPrint(old(State()), old(GlobalIndex()), environment.id, e, fuel), o)
      decreases fuel, StmtSize(Print(e)), 0
    {
      var r := Evaluate(e, fuel);
      if !r.Normal? {
        return Sem.Abrupt(r);
      }
      output := output + [r.value];
      o := Normal(());
    }

    /** A `var` statement: the initializer's value, or nil, bound in the current frame. */
    method ExecuteVar(name: Token, initializer: Option<Expr>, fuel: nat) returns (o: Outcome<()>)
      requires Inv()
      modifies this, frames
      ensures Inv() && Kept()
      ensures Reached(Sem.ExecVar(old(State()), old(GlobalIndex()), environment.id, name, initializer, fuel), o)
      decreases fuel, StmtSize(Var(name, initializer)), 0
    {
      var value := Nil;
      if initializer.Some? {
        var r := Evaluate(initializer.value, fuel);
        if !r.Normal? {
          return Sem.Abrupt(r);
        }
        value := r.value;
      }
      DefineIn(environment, name.lexeme, value);
      o := Normal(());
    }

    /**
     * The loop of `execute` for a `while` statement: iterations, one unit
     * of fuel each, until one says the loop is over.
     */
    method ExecuteWhile(condition: Expr, body: Stmt, fuel: nat) returns (o: Outcome<()>)
      requires Inv()
      modifies this, frames
      ensures Inv() && Kept()
      ensures Reached(Sem.ExecWhile(old(State()), old(GlobalIndex()), environment.id, condition, body, fuel), o)
      decreases fuel, ExprSize(condition) + StmtSize(body), 2
    {
      ghost var outcome := Sem.ExecWhile(State(), GlobalIndex(), environment.id, condition, body, fuel);
      var left: nat := fuel;
      var again := true;
      o := Normal(());
      while again
        invariant left <= fuel && Inv() && Kept()
        invariant again ==> Continues(condition, body, left, outcome)
        invariant !again ==> Reached(outcome, o)
        decreases left + if again then 1 else 0
      {
        o, again, left := ExecuteWhileTurn(condition, body, left, outcome);
      }
    }

    /** Running the rest of the loop with this much fuel from here ends as `outcome` says. */
    ghost predicate Continues(condition: Expr, body: Stmt, left: nat, outcome: (Sem.State, Outcome<()>))
      reads this
    {
      && Sem.Ready(State(), GlobalIndex(), environment.id)
      && var w := Sem.ExecWhile(State(), GlobalIndex(), environment.id, condition, body, left);
         w.0 == outcome.0 && w.1 == outcome.1
    }

    /**
     * One turn of the loop: with no fuel left the loop is exhausted;
     * otherwise an iteration, after which the loop either goes on with one
     * unit less or has ended as it must.
     */
    method ExecuteWhileTurn(condition: Expr, body: Stmt, left: nat, ghost outcome: (Sem.State, Outcome<()>))
      returns (o: Outcome<()>, again: bool, rest: nat)
      requires Inv() && Continues(condition, body, left, outcome)
      modifies this, frames
      ensures Inv() && Kept()
      ensures again ==> rest < left && Continues(condition, body, rest, outcome)
      ensures !again ==> rest <= left && Reached(outcome, o)
      decreases left, ExprSize(condition) + StmtSize(body), 1
    {
      if left == 0 {
        o, again, rest := Exhausted, false, 0;
      } else {
        o, again := ExecuteWhileIteration(condition, body, left);
        rest := left - 1;
      }
    }

    /** One iteration of a `while` loop: the condition, then the body if the condition is truthy. */
    method ExecuteWhileIteration(condition: Expr, body: Stmt, fuel: nat) returns (o: Outcome<()>, again: bool)
      requires Inv()
      modifies this, frames
      ensures Inv() && Kept()
      ensures var r := Sem.WhileIteration(old(State()), old(GlobalIndex()), environment.id, condition, body, fuel);
              State() == r.0 && o == r.1 && again == r.2
      decreases fuel, ExprSize(condition) + StmtSize(body), 0
    {
      var c := Evaluate(condition, fuel);
      o, again := ExecuteWhileAfterCondition(c, body, fuel);
    }

    /** The rest of an iteration once the condition gave `c`: the body runs only if `c` is a truthy value. */
    method ExecuteWhileAfterCondition(c: Outcome<Value>, body: Stmt, fuel: nat) returns (o: Outcome<()>, again: bool)
      requires Inv()
      modifies this, frames
      ensures Inv() && Kept()
      ensures var r := Sem.WhileAfterCondition(old(State()), old(GlobalIndex()), environment.id, c, body, fuel);
              State() == r.0 && o == r.1 && again == r.2
      decreases fuel, StmtSize(body), 2
    {
      if c.Panicked? || c.Exhausted? {
        o, again := Sem.Abrupt(c), false;
      } else if c.Raised? || !IsTruthy(c.value) {
        o, again := Normal(()), false;
      } else {
        var r := Execute(body, fuel);
        if r.Panicked? || r.Exhausted? {
          o, again := r, false;
        } else {
          o, again := Normal(()), true;
        }
      }
    }

    /** `evaluate`: one expression in the current frame. */
    method Evaluate(e: Expr, fuel: nat) returns (o: Outcome<Value>)
      requires Inv()
      modifies this, frames
      ensures Inv() && Kept()
      ensures Reached(Sem.Eval(old(State()), old(GlobalIndex()), environment.id, e, fuel), o)
      decreases fuel, ExprSize(e), 1
    {
      match e
      case Assign(name, value) =>
        o := EvaluateAssign(name, value, fuel);
      case Binary(left, operator, right) =>
        o := EvaluateBinary(left, operator, right, fuel);
      case Call(callee, paren, arguments) =>
        o := EvaluateCall(callee, paren, arguments, fuel);
      case Literal(v) =>
        o := Normal(LiteralToValue(v));
      case Logical(left, operator, right) =>
        o := EvaluateLogical(left, operator, right, fuel);
      case Unary(operator, right) =>
        o := EvaluateUnary(operator, right, fuel);
      case Variable(name) =>
        GetMirrors(environment.id, name);
        var v := environment.Get(name);
        o := if v.Ok? then Normal(v.value) else Raised(v.error);
      case Get(_, _) => o := Raised(ParseFailure(Some(Plain("unreachable code error"))));
      case Grouping(_) => o := Raised(ParseFailure(Some(Plain("unreachable code error"))));
      case Set(_, _, _) => o := Raised(ParseFailure(Some(Plain("unreachable code error"))));
      case Super(_, _) => o := Raised(ParseFailure(Some(Plain("unreachable code error"))));
      case This(_) => o := Raised(ParseFailure(Some(Plain("unreachable code error"))));
    }

    /** An assignment: the value, then `assign` from the current frame. */
    method EvaluateAssign(name: Token, value: Expr, fuel: nat) returns (o: Outcome<Value>)
      requires Inv()
      modifies this, frames
      ensures Inv() && Kept()
      ensures Reached(Sem.EvalAssign(old(State()), old(GlobalIndex()), environment.id, name, value, fuel), o)
      decreases fuel, ExprSize(Assign(name, value)), 0
    {
      o := Evaluate(value, fuel);
      if o.Normal? {
        var err := AssignHere(name, o.value);
        if err.Some? {
          o := Raised(err.value);
        }
      }
    }

    /** A binary operator: both operands, with their errors wrapped, then the operator. */
    method EvaluateBinary(left: Expr, operator: Token, right: Expr, fuel: nat) returns (o: Outcome<Value>)
      requires Inv()
      modifies this, frames
      ensures Inv() && Kept()
      ensures Reached(Sem.EvalBinary(old(State()), old(GlobalIndex()), environment.id, left, operator, right, fuel), o)
      decreases fuel, ExprSize(Binary(left, operator, right)), 0
    {
      var l := Evaluate(left, fuel);
      if !l.Normal? {
        return Sem.Wrapped(l);
      }
      var r := Evaluate(right, fuel);
      if !r.Normal? {
        return Sem.Wrapped(r);
      }
      o := ApplyBinary(operator, l.value, r.value);
    }

    /** A call: the callee, the arguments collected as written, then the call. */
    method EvaluateCall(callee: Expr, paren: Token, arguments: seq<Expr>, fuel: nat) returns (o: Outcome<Value>)
      requires Inv()
      modifies this, frames
      ensures Inv() && Kept()
      ensures Reached(Sem.EvalCall(old(State()), old(GlobalIndex()), environment.id, callee, paren, arguments, fuel), o)
      decreases fuel, ExprSize(Call(callee, paren, arguments)), 0
    {
      var c := Evaluate(callee, fuel);
      if !c.Normal? {
        return c;
      }
      var args: seq<Value> := [];
      for k := 0 to |arguments|
        invariant |args| == k && forall j :: 0 <= j < k ==> args[j] == Code(arguments[j])
      {
        args := args + [Code(arguments[k])];
      }
      assert args == Sem.Arguments(arguments);
      o := CallValue(c.value, paren, args, fuel);
    }

    /** A logical operator: `or` yields its left operand in both of its branches; any other evaluates the right one. */
    method EvaluateLogical(left: Expr, operator: Token, right: Expr, fuel: nat) returns (o: Outcome<Value>)
      requires Inv()
      modifies this, frames
      ensures Inv() && Kept()
      ensures Reached(Sem.EvalLogical(old(State()), old(GlobalIndex()), environment.id, left, operator, right, fuel), o)
      decreases fuel, ExprSize(Logical(left, operator, right)), 0
    {
      var l := Evaluate(left, fuel);
      if !l.Normal? {
        return l;
      }
      if operator.kind == OR {
        if IsTruthy(l.value) {
          return l;
        } else {
          if !IsTruthy(l.value) {
            return l;
          }
        }
      }
      o := Evaluate(right, fuel);
    }

    /** A unary operator: the operand, with its error wrapped, then the operator. */
    method EvaluateUnary(operator: Token, right: Expr, fuel: nat) returns (o: Outcome<Value>)
      requires Inv()
      modifies this, frames
      ensures Inv() && Kept()
      ensures Reached(Sem.EvalUnary(old(State()), old(GlobalIndex()), environment.id, operator, right, fuel), o)
      decreases fuel, ExprSize(Unary(operator, right)), 0
    {
      var r := Evaluate(right, fuel);
      if !r.Normal? {
        return Sem.Wrapped(r);
      }
      o := ApplyUnary(operator, r.value);
    }

    /** The call step of `evaluate`: only functions and classes, with as many arguments as their arity. */
    method CallValue(callee: Value, paren: Token, args: seq<Value>, fuel: nat) returns (o: Outcome<Value>)
      requires Inv()
      modifies this, frames
      ensures Inv() && Kept()
      ensures Reached(Sem.CallValue(old(State()), old(GlobalIndex()), callee, paren, args, fuel), o)
      decreases fuel, 0, 2
    {
      match callee
      case Fn(f) =>
        if |args| != FunctionArity(f) {
          return Raised(RuntimeError(paren, Sem.ArityMessage(FunctionArity(f), |args|)));
        }
        o := CallFunction(f, args, fuel);
      case Class(klass) =>
        if |args| != ClassArity(klass) {
          return Raised(RuntimeError(paren, Sem.ArityMessage(ClassArity(klass), |args|)));
        }
        o := CallClass(klass, args, fuel);
      case _ =>
        o := Raised(RuntimeError(paren, "Can only call functions and classes."));
    }

    /** `LoxClass.call`: runs the nearest `init`, if any, and yields a new instance. */
    method CallClass(klass: LoxClass, args: seq<Value>, fuel: nat) returns (o: Outcome<Value>)
      requires Inv() && |args| == ClassArity(klass)
      modifies this, frames
      ensures Inv() && Kept()
      ensures Reached(Sem.Construct(old(State()), old(GlobalIndex()), klass, args, fuel), o)
      decreases fuel, 0, 1
    {
      var init := FindMethod(klass, "init");
      if init.Ok? {
        var r := CallFunction(init.value, args, fuel);
        if r.Panicked? || r.Exhausted? {
          return Sem.Abrupt(r);
        }
      }
      o := Normal(Instance(klass));
    }

    /** The frame of a call: enclosed by the globals, binding the parameters to the arguments in order. */
    method CallFrame(params: seq<Token>, args: seq<Value>) returns (frame: Environment)
      requires Inv() && |params| == |args|
      modifies this
      ensures Inv() && Kept() && Holds(frame) && frame.id == |old(store)|
      ensures State() == Sem.Entered(old(State()), old(GlobalIndex()), params, args)
    {
      ghost var g := GlobalIndex();
      frame := PushFrame(globals);
      for k := 0 to |params|
        invariant Inv() && frames == old(frames) + [frame] && frame.id == |old(store)|
        invariant environment == old(environment) && globals == old(globals) && output == old(output)
        invariant store == old(store) + [Frames.Frame(Sem.Bind(params[..k], args[..k]), g)]
      {
        Sem.BindStep(params, args, k);
        Frames.DefineLast(old(store), Frames.Frame(Sem.Bind(params[..k], args[..k]), g), params[k].lexeme, args[k]);
        DefineIn(frame, params[k].lexeme, args[k]);
      }
      assert params[..|params|] == params && args[..|args|] == args;
    }

    /**
     * `LoxFunction.call`: the body runs in the call's frame with the
     * globals unset, as in a fresh interpreter. The call yields the value a
     * `return` signalled, and nil otherwise.
     */
    method CallFunction(f: LoxFunction, args: seq<Value>, fuel: nat) returns (o: Outcome<Value>)
      requires Inv() && |args| == FunctionArity(f)
      modifies this, frames
      ensures Inv() && Kept()
      ensures Reached(Sem.Invoke(old(State()), old(GlobalIndex()), f, args, fuel), o)
      decreases fuel, 0, 0
    {
      if fuel == 0 {
        o := Exhausted;
      } else {
        var frame := CallFrame(f.declaration.params, args);
        var r := RunBody(f.declaration.body, frame, fuel - 1);
        o := Sem.Returned(r);
      }
    }

    /**
     * A called function's body runs as a block in the call's frame, with
     * no globals; the caller's globals are put back afterwards.
     */
    method RunBody(body: seq<Stmt>, frame: Environment, fuel: nat) returns (o: Outcome<()>)
      requires Inv() && Holds(frame)
      modifies this, frames
      ensures Inv() && Kept()
      ensures Reached(Sem.ExecAll(old(State()), None, frame.id, body, fuel), o)
      decreases fuel, StmtsSize(body), 4
    {
      var saved := globals;
      globals := null;
      o := ExecuteBlock(body, frame, fuel);
      globals := saved;
    }
  }
}
