/**
 * The evaluator's operations on values: truthiness, equality, the operand
 * checks, and what each unary and binary operator makes of its operands'
 * values. None of them looks at the environment.
 */
module Operators {
  import opened Wrappers
  import opened Tokens
  import opened Syntax
  import opened Values

  /** nil and false are false; every other value, whatever its type, is true. */
  predicate IsTruthy(v: Value) {
    match v
    case Nil => false
    case Bool(b) => b
    case _ => true
  }

  lemma TruthyExactly(v: Value)
    ensures !IsTruthy(v) <==> v == Nil || v == Bool(false)
  {
  }

  /**
   * Equality as the host decides it: nil equals only nil; values of two
   * different types are unequal; booleans, numbers and strings compare by
   * value, unevaluated expressions by their syntax. Two functions, two
   * classes or two instances cannot be compared by the host at all (they
   * hold tables), which crashes it: None.
   */
  function IsEqual(a: Value, b: Value): Option<bool> {
    if a == Nil && b == Nil then Some(true)
    else if a == Nil then Some(false)
    else
      match (a, b)
      case (Bool(x), Bool(y)) => Some(x == y)
      case (Num(x), Num(y)) => Some(x == y)
      case (Str(x), Str(y)) => Some(x == y)
      case (Code(x), Code(y)) => Some(x == y)
      case (Fn(_), Fn(_)) => None
      case (Class(_), Class(_)) => None
      case (Instance(_), Instance(_)) => None
      case _ => Some(false)
  }

  /** The values the host can compare with a value of the same type. */
  predicate Comparable(v: Value) {
    !(v.Fn? || v.Class? || v.Instance?)
  }

  /**
   * Equality is an equivalence on comparable values: nil equals nil and
   * nothing else, every comparable value equals itself, the order of the
   * operands does not matter, and it answers exactly when the operands are
   * not two uncomparable values of the same type.
   */
  lemma EqualityLaws(a: Value, b: Value)
    ensures IsEqual(Nil, Nil) == Some(true)
    ensures a != Nil ==> IsEqual(Nil, a) == Some(false) && IsEqual(a, Nil) == Some(false)
    ensures Comparable(a) ==> IsEqual(a, a) == Some(true)
    ensures IsEqual(a, b) == IsEqual(b, a)
    ensures IsEqual(a, b).None? <==> !Comparable(a) && !Comparable(b) && (a.Fn? <==> b.Fn?) && (a.Class? <==> b.Class?)
    ensures IsEqual(a, b) == Some(true) ==> a == b
  {
  }

  /** `checkNumberOperand`: the number, or the error "operand must be a number." at the operator. */
  function CheckNumberOperand(operator: Token, operand: Value): Result<real, Failure> {
    if operand.Num? then Ok(operand.n) else Err(RuntimeError(operator, "operand must be a number."))
  }

  /** `checkNumberOperands`: both numbers, or the error "operands must be a number." at the operator. */
  function CheckNumberOperands(operator: Token, left: Value, right: Value): Result<(real, real), Failure> {
    if left.Num? && right.Num? then Ok((left.n, right.n))
    else Err(RuntimeError(operator, "operands must be a number."))
  }

  /**
   * What `+` sees in an operand. A number or a string is read as such,
   * also when it is the literal of an unevaluated expression; reading nil,
   * or a literal holding nil, crashes the host's reflection; anything else
   * reads as neither.
   */
  datatype Reading = ReadsNumber(n: real) | ReadsText(s: string) | ReadsOther | Unreadable

  function ReadStruct(v: Value): Reading {
    match v
    case Nil => Unreadable
    case Num(n) => ReadsNumber(n)
    case Str(s) => ReadsText(s)
    case Code(Literal(NilLit)) => Unreadable
    case Code(Literal(NumLit(n))) => ReadsNumber(n)
    case Code(Literal(StrLit(s))) => ReadsText(s)
    case _ => ReadsOther
  }

  /** Division of reals, with the quotient by zero taken as zero (the host's infinities are not modelled). */
  function Quotient(x: real, y: real): real {
    if y == 0.0 then 0.0 else x / y
  }

  /**
   * A unary operator applied to its operand's value: `!` negates
   * truthiness, `-` negates a number. Any other operator is unreachable and
   * yields the evaluator's wrapper around no error.
   */
  function ApplyUnary(operator: Token, right: Value): Outcome<Value> {
    match operator.kind
    case BANG => Normal(Bool(!IsTruthy(right)))
    case MINUS =>
      var r := CheckNumberOperand(operator, right);
      if r.Err? then Raised(r.error) else Normal(Num(-r.value))
    case _ => Raised(ParseFailure(None))
  }

  /**
   * A binary operator applied to its operands' values. The comparisons
   * check their operands; `-`, `/` and `*` assert that both operands are
   * numbers without checking, so anything else crashes the host; `+` adds
   * two numbers or joins two strings as read by `ReadStruct`.
   */
  function ApplyBinary(operator: Token, left: Value, right: Value): Outcome<Value> {
    match operator.kind
    case GREATER => Compare(operator, left, right)
    case GREATER_EQUAL => Compare(operator, left, right)
    case LESS => Compare(operator, left, right)
    case LESS_EQUAL => Compare(operator, left, right)
    case BANG_EQUAL =>
      var eq := IsEqual(left, right);
      if eq.None? then Panicked else Normal(Bool(!eq.value))
    case EQUAL_EQUAL =>
      var eq := IsEqual(left, right);
      if eq.None? then Panicked else Normal(Bool(eq.value))
    case MINUS => if left.Num? && right.Num? then Normal(Num(left.n - right.n)) else Panicked
    case PLUS => Plus(operator, left, right)
    case SLASH => if left.Num? && right.Num? then Normal(Num(Quotient(left.n, right.n))) else Panicked
    case STAR => if left.Num? && right.Num? then Normal(Num(left.n * right.n)) else Panicked
    case _ => Raised(ParseFailure(None))
  }

  function Compare(operator: Token, left: Value, right: Value): Outcome<Value>
    requires operator.kind in {GREATER, GREATER_EQUAL, LESS, LESS_EQUAL}
  {
    var r := CheckNumberOperands(operator, left, right);
    if r.Err? then Raised(r.error)
    else
      var (x, y) := r.value;
      Normal(Bool(match operator.kind
                  case GREATER => x > y
                  case GREATER_EQUAL => x >= y
                  case LESS => x < y
                  case LESS_EQUAL => x <= y))
  }

  function Plus(operator: Token, left: Value, right: Value): Outcome<Value> {
    var l, r := ReadStruct(left), ReadStruct(right);
    if l.Unreadable? || r.Unreadable? then Panicked
    else if l.ReadsNumber? && r.ReadsNumber? then Normal(Num(l.n + r.n))
    else if l.ReadsText? && r.ReadsText? then Normal(Str(l.s + r.s))
    else Raised(RuntimeError(operator, "operands must be two numbers or two strings."))
  }

  /** `!=` is the negation of `==`, and crashes exactly when `==` does. */
  lemma NotEqualNegates(bangEqual: Token, equalEqual: Token, a: Value, b: Value)
    requires bangEqual.kind == BANG_EQUAL && equalEqual.kind == EQUAL_EQUAL
    ensures ApplyBinary(bangEqual, a, b).Panicked? <==> ApplyBinary(equalEqual, a, b).Panicked?
    ensures ApplyBinary(equalEqual, a, b).Normal? ==>
              ApplyBinary(bangEqual, a, b) == Normal(Bool(!ApplyBinary(equalEqual, a, b).value.b))
  {
  }

  /**
   * The comparisons fail with a runtime error at the operator unless both
   * operands are numbers, and otherwise compare them.
   */
  lemma ComparisonOperands(operator: Token, left: Value, right: Value)
    requires operator.kind in {GREATER, GREATER_EQUAL, LESS, LESS_EQUAL}
    ensures ApplyBinary(operator, left, right).Raised? <==> !(left.Num? && right.Num?)
    ensures !(left.Num? && right.Num?) ==> ApplyBinary(operator, left, right) == Raised(RuntimeError(operator, "operands must be a number."))
    ensures left.Num? && right.Num? ==>
              ApplyBinary(operator, left, right) == Normal(Bool(match operator.kind
                                                                case GREATER => left.n > right.n
                                                                case GREATER_EQUAL => left.n >= right.n
                                                                case LESS => left.n < right.n
                                                                case LESS_EQUAL => left.n <= right.n))
  {
  }

  /** Unary minus fails with a runtime error at the operator unless its operand is a number, which it negates. */
  lemma NegationOperand(minus: Token, right: Value)
    requires minus.kind == MINUS
    ensures ApplyUnary(minus, right).Raised? <==> !right.Num?
    ensures right.Num? ==> ApplyUnary(minus, right) == Normal(Num(-right.n))
    ensures !right.Num? ==> ApplyUnary(minus, right) == Raised(RuntimeError(minus, "operand must be a number."))
  {
  }

  /**
   * `+` adds two numbers and joins two strings; any other mix of readable
   * operands is the error "operands must be two numbers or two strings.";
   * nil on either side crashes the host.
   */
  lemma PlusCases(plus: Token, left: Value, right: Value)
    requires plus.kind == PLUS
    ensures left.Num? && right.Num? ==> ApplyBinary(plus, left, right) == Normal(Num(left.n + right.n))
    ensures left.Str? && right.Str? ==> ApplyBinary(plus, left, right) == Normal(Str(left.s + right.s))
    ensures left == Nil || right == Nil ==> ApplyBinary(plus, left, right) == Panicked
    ensures var l, r := ReadStruct(left), ReadStruct(right);
            !l.Unreadable? && !r.Unreadable? && !(l.ReadsNumber? && r.ReadsNumber?) && !(l.ReadsText? && r.ReadsText?) ==>
              ApplyBinary(plus, left, right) == Raised(RuntimeError(plus, "operands must be two numbers or two strings."))
    ensures ApplyBinary(plus, left, right).Normal? ==> ApplyBinary(plus, left, right).value.Num? || ApplyBinary(plus, left, right).value.Str?
  {
    assert ApplyBinary(plus, left, right) == Plus(plus, left, right);
  }

  /** `-`, `/` and `*` crash the host unless both operands are numbers. */
  lemma ArithmeticCrashes(operator: Token, left: Value, right: Value)
    requires operator.kind in {MINUS, SLASH, STAR}
    ensures ApplyBinary(operator, left, right).Panicked? <==> !(left.Num? && right.Num?)
    ensures ApplyBinary(operator, left, right).Raised? == false
  {
  }
}
