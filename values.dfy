/**
 * The runtime objects of Lox: user functions, classes, the values the
 * evaluator passes around, and the errors it reports.
 */
module Values {
  import opened Wrappers
  import opened Tokens
  import opened Syntax

  // ---------------------------------------------------------------------
  // Functions

  /** A user function: the declaration it was made from. */
  datatype LoxFunction = LoxFunction(declaration: FunctionDecl)

  /** How many arguments a call of the function must pass: one per declared parameter. */
  function FunctionArity(f: LoxFunction): nat {
    |f.declaration.params|
  }

  /** `<fn name>`. */
  function FunctionText(f: LoxFunction): string {
    "<fn " + f.declaration.name.lexeme + ">"
  }

  // ---------------------------------------------------------------------
  // Classes

  /**
   * A class: its name, the class it inherits from, and its methods by
   * name. A class refers to its superclass as a value, so every chain of
   * superclasses is finite.
   */
  datatype LoxClass = LoxClass(name: string, superclass: Option<LoxClass>, methods: map<string, LoxFunction>)

  /** The class and its superclasses, nearest first. */
  function Lineage(c: LoxClass): (line: seq<LoxClass>)
    ensures |line| > 0 && line[0] == c
  {
    if c.superclass.None? then [c] else [c] + Lineage(c.superclass.value)
  }

  /**
   * Method lookup: the class's own method of that name, else the
   * superclass's, up the chain; the error "method not found" when no class
   * on the chain has one.
   */
  function FindMethod(c: LoxClass, name: string): Result<LoxFunction, string> {
    if name in c.methods then Ok(c.methods[name])
    else if c.superclass.Some? then FindMethod(c.superclass.value, name)
    else Err("method not found")
  }

  /**
   * Lookup finds the method of the nearest class on the chain that has
   * one: the classes before it do not have the name. It fails exactly when
   * no class on the chain has the name.
   */
  lemma {:induction false} FindMethodNearest(c: LoxClass, name: string)
    ensures FindMethod(c, name).Err? <==> forall k :: 0 <= k < |Lineage(c)| ==> name !in Lineage(c)[k].methods
    ensures FindMethod(c, name).Err? ==> FindMethod(c, name).error == "method not found"
    ensures FindMethod(c, name).Ok? ==>
              exists k :: 0 <= k < |Lineage(c)| && name in Lineage(c)[k].methods
                          && FindMethod(c, name).value == Lineage(c)[k].methods[name]
                          && forall j :: 0 <= j < k ==> name !in Lineage(c)[j].methods
  {
    if name !in c.methods && c.superclass.Some? {
      var up := c.superclass.value;
      FindMethodNearest(up, name);
      assert Lineage(c) == [c] + Lineage(up);
      if FindMethod(up, name).Ok? {
        var k :| 0 <= k < |Lineage(up)| && name in Lineage(up)[k].methods
                 && FindMethod(up, name).value == Lineage(up)[k].methods[name]
                 && forall j :: 0 <= j < k ==> name !in Lineage(up)[j].methods;
        assert Lineage(c)[k + 1] == Lineage(up)[k];
        assert forall j :: 1 <= j < k + 1 ==> Lineage(c)[j] == Lineage(up)[j - 1];
      } else {
        assert forall j :: 1 <= j < |Lineage(c)| ==> Lineage(c)[j] == Lineage(up)[j - 1];
      }
    } else if name in c.methods {
      assert Lineage(c)[0] == c;
    }
  }

  /** A class's own method shadows any method of the same name further up. */
  lemma OwnMethodShadows(c: LoxClass, name: string)
    requires name in c.methods
    ensures FindMethod(c, name) == Ok(c.methods[name])
  {
  }

  /** A class that does not define the name answers as its superclass does. */
  lemma InheritedMethod(c: LoxClass, name: string)
    requires name !in c.methods && c.superclass.Some?
    ensures FindMethod(c, name) == FindMethod(c.superclass.value, name)
  {
  }

  /** How many arguments a call of the class must pass: those of its `init`, or none. */
  function ClassArity(c: LoxClass): nat {
    var init := FindMethod(c, "init");
    if init.Ok? then FunctionArity(init.value) else 0
  }

  /** The arity of a class is that of the nearest `init` on its chain. */
  lemma ClassArityFromInit(c: LoxClass)
    ensures "init" in c.methods ==> ClassArity(c) == |c.methods["init"].declaration.params|
    ensures "init" !in c.methods && c.superclass.Some? ==> ClassArity(c) == ClassArity(c.superclass.value)
    ensures "init" !in c.methods && c.superclass.None? ==> ClassArity(c) == 0
  {
  }

  /** A class prints as its name. */
  function ClassText(c: LoxClass): string {
    c.name
  }

  /** An instance prints as its class's name and ` instance`. */
  function InstanceText(c: LoxClass): string {
    c.name + " instance"
  }

  // ---------------------------------------------------------------------
  // Values

  /**
   * What an expression evaluates to. `Code` is an unevaluated expression:
   * call arguments are passed to the callee as written, not evaluated.
   * `Instance` is an instance of a class; the evaluator never reads or
   * writes the fields of the instances it makes, so it keeps only the class.
   */
  datatype Value =
    | Nil
    | Bool(b: bool)
    | Num(n: real)
    | Str(s: string)
    | Code(expr: Expr)
    | Fn(fn: LoxFunction)
    | Class(klass: LoxClass)
    | Instance(klass: LoxClass)

  /** The value a literal expression evaluates to. */
  function LiteralToValue(v: LiteralValue): Value {
    match v
    case NilLit => Nil
    case BoolLit(b) => Bool(b)
    case NumLit(n) => Num(n)
    case StrLit(s) => Str(s)
  }

  /**
   * The errors evaluation reports: a runtime error at a token, a plain
   * error with a message, the wrapper the evaluator puts around an
   * operand's error (which may wrap nothing), and the signal a `return`
   * carries its value in.
   */
  datatype Failure =
    | RuntimeError(token: Token, message: string)
    | Plain(text: string)
    | ParseFailure(cause: Option<Failure>)
    | ReturnSignal(value: Value)

  /**
   * How an evaluation ends: normally with a result, with an error, with a
   * crash of the host (an unchecked type assertion, or a comparison of
   * values the host cannot compare), or without finishing within the
   * given budget of calls and loop iterations.
   */
  datatype Outcome<+T> = Normal(value: T) | Raised(failure: Failure) | Panicked | Exhausted

  // ---------------------------------------------------------------------
  // Decimal text of a count, as the host formats an integer

  function DigitChar(d: nat): char
    requires d < 10
  {
    ('0' as int + d) as char
  }

  /** The decimal digits of `n`, most significant first, without leading zeros. */
  function Decimal(n: nat): (s: string)
    ensures |s| > 0 && AllDigits(s)
  {
    if n < 10 then [DigitChar(n)] else Decimal(n / 10) + [DigitChar(n % 10)]
  }

  lemma {:induction false} IntegerValuePrefix(s: string, t: string, n: nat)
    requires n <= |s| && n <= |t| && s[..n] == t[..n]
    ensures IntegerValue(s, n) == IntegerValue(t, n)
  {
    if n > 0 {
      assert s[..n - 1] == s[..n][..n - 1] && t[..n - 1] == t[..n][..n - 1];
      assert s[n - 1] == s[..n][n - 1] && t[n - 1] == t[..n][n - 1];
      IntegerValuePrefix(s, t, n - 1);
    }
  }

  /** Reading the decimal text back with the scanner's digit reading gives the number. */
  lemma {:induction false} DecimalRoundTrip(n: nat)
    ensures IntegerValue(Decimal(n), |Decimal(n)|) == n
  {
    if n >= 10 {
      var s := Decimal(n / 10);
      DecimalRoundTrip(n / 10);
      var t := s + [DigitChar(n % 10)];
      assert t[..|s|] == s[..|s|];
      IntegerValuePrefix(s, t, |s|);
    }
  }
}
