/**
 * The expression parser: recursive descent over the scanner's tokens, one
 * function per precedence level, loosest first (equality, comparison, term,
 * factor, unary, primary). The pure functions below say what parsing from a
 * position yields; the class `Parser` is the parser itself, a cursor over
 * the token list, and each of its methods is proved to do what the function
 * of the same level says.
 */
module Parsing {
  import opened Wrappers
  import opened Tokens
  import opened Syntax

  /** The error a parse fails with: the token it was reported at and the message reported. */
  datatype ParseError = ParseError(token: Token, message: string)

  /** What parsing from a position yields: a tree or an error, and where the cursor is left. */
  datatype Parsed = Parsed(result: Result<Expr, ParseError>, next: nat)

  /** The parser walks the scanner's output, which always ends with an EOF token. */
  predicate EndsWithEof(ts: seq<Token>) {
    |ts| > 0 && ts[|ts| - 1].kind == EOF
  }

  /** The cursor is at the end when it is on an EOF token. */
  predicate AtEnd(ts: seq<Token>, pos: nat)
    requires pos < |ts|
  {
    ts[pos].kind == EOF
  }

  /** The token at `pos` has type `k`; never true at the end. */
  predicate Checks(ts: seq<Token>, pos: nat, k: TokenType)
    requires pos < |ts|
  {
    !AtEnd(ts, pos) && ts[pos].kind == k
  }

  /** The token at `pos` has one of the types in `kinds`; never true at the end. */
  predicate Matches(ts: seq<Token>, pos: nat, kinds: seq<TokenType>)
    requires pos < |ts|
  {
    !AtEnd(ts, pos) && ts[pos].kind in kinds
  }

  /** The four levels of left-associative binary operators, loosest first. */
  datatype Level = Equality | Comparison | Term | Factor

  /** The operators each binary level takes, in the order the parser tries them. */
  function Operators(l: Level): seq<TokenType> {
    match l
    case Equality => [BANG_EQUAL, EQUAL_EQUAL]
    case Comparison => [GREATER, GREATER_EQUAL, LESS, LESS_EQUAL]
    case Term => [MINUS, PLUS]
    case Factor => [SLASH, STAR]
  }

  /** How loosely a level binds: factor 0, term 1, comparison 2, equality 3. */
  function Rank(l: Level): nat {
    match l
    case Factor => 0
    case Term => 1
    case Comparison => 2
    case Equality => 3
  }

  /** The level whose trees are the operands of level `l` (below factor come unary expressions). */
  function Tighter(l: Level): Level
    requires l != Factor
  {
    match l
    case Equality => Comparison
    case Comparison => Term
    case Term => Factor
  }

  // ---------------------------------------------------------------------
  // What parsing from position `pos` of a token list yields

  /** `expression`: an equality. */
  function ParseExpr(ts: seq<Token>, pos: nat): (r: Parsed)
    requires EndsWithEof(ts) && pos < |ts|
    ensures pos <= r.next < |ts| && (r.result.Ok? ==> pos < r.next)
    decreases |ts| - pos, 10
  {
    ParseBinary(ts, pos, Equality)
  }

  /** One binary level: an operand of the next tighter level, then any operators of this level. */
  function ParseBinary(ts: seq<Token>, pos: nat, l: Level): (r: Parsed)
    requires EndsWithEof(ts) && pos < |ts|
    ensures pos <= r.next < |ts| && (r.result.Ok? ==> pos < r.next)
    decreases |ts| - pos, 2 * Rank(l) + 3
  {
    var first := if l == Factor then ParseUnary(ts, pos) else ParseBinary(ts, pos, Tighter(l));
    if first.result.Err? then first else ParseMore(ts, first.next, l, first.result.value)
  }

  /**
   * The loop of a binary level: while the next token is one of the level's
   * operators, consume it and an operand, and make the tree so far the left
   * child of a new node.
   */
  function ParseMore(ts: seq<Token>, pos: nat, l: Level, left: Expr): (r: Parsed)
    requires EndsWithEof(ts) && pos < |ts|
    ensures pos <= r.next < |ts|
    decreases |ts| - pos, 2 * Rank(l) + 2
  {
    if Matches(ts, pos, Operators(l)) then
      var right := if l == Factor then ParseUnary(ts, pos + 1) else ParseBinary(ts, pos + 1, Tighter(l));
      if right.result.Err? then right
      else ParseMore(ts, right.next, l, Binary(left, ts[pos], right.result.value))
    else
      Parsed(Ok(left), pos)
  }

  /** `unary`: a '!' or '-' applied to another unary expression, or a primary one. */
  function ParseUnary(ts: seq<Token>, pos: nat): (r: Parsed)
    requires EndsWithEof(ts) && pos < |ts|
    ensures pos <= r.next < |ts| && (r.result.Ok? ==> pos < r.next)
    decreases |ts| - pos, 1
  {
    if Matches(ts, pos, [BANG, MINUS]) then
      var right := ParseUnary(ts, pos + 1);
      if right.result.Err? then right
      else Parsed(Ok(Unary(ts[pos], right.result.value)), right.next)
    else
      ParsePrimary(ts, pos)
  }

  /**
   * `primary`: a literal, or a parenthesised expression. The closing
   * parenthesis is consumed when present; when it is missing, the error
   * `consume` reports is not passed on, so the group is accepted.
   */
  function ParsePrimary(ts: seq<Token>, pos: nat): (r: Parsed)
    requires EndsWithEof(ts) && pos < |ts|
    ensures pos <= r.next < |ts| && (r.result.Ok? ==> pos < r.next)
    decreases |ts| - pos, 0
  {
    if Checks(ts, pos, FALSE) then Parsed(Ok(Literal(BoolLit(false))), pos + 1)
    else if Checks(ts, pos, TRUE) then Parsed(Ok(Literal(BoolLit(true))), pos + 1)
    else if Checks(ts, pos, NIL) then Parsed(Ok(Literal(NilLit)), pos + 1)
    else if Matches(ts, pos, [NUMBER, STRING]) then Parsed(Ok(Literal(ts[pos].literal)), pos + 1)
    else if Checks(ts, pos, LEFT_PAREN) then
      var inner := ParseExpr(ts, pos + 1);
      if inner.result.Err? then inner
      else if Checks(ts, inner.next, RIGHT_PAREN) then Parsed(Ok(Grouping(inner.result.value)), inner.next + 1)
      else Parsed(Ok(Grouping(inner.result.value)), inner.next)
    else
      Parsed(Err(ParseError(ts[pos], "Expect expression.")), pos)
  }

  // ---------------------------------------------------------------------
  // The shape of the trees: precedence and associativity

  /** The binary level an operator belongs to, if any. */
  function OperatorLevel(k: TokenType): Option<Level> {
    if k in Operators(Equality) then Some(Equality)
    else if k in Operators(Comparison) then Some(Comparison)
    else if k in Operators(Term) then Some(Term)
    else if k in Operators(Factor) then Some(Factor)
    else None
  }

  /** How loosely the root of a tree binds: one more than its level's rank for a binary node, 0 otherwise. */
  function Tier(e: Expr): nat {
    match e
    case Binary(_, op, _) => if OperatorLevel(op.kind).Some? then Rank(OperatorLevel(op.kind).value) + 1 else 0
    case _ => 0
  }

  /**
   * The trees the parser can build. The left child of a binary node binds
   * no more loosely than the node (operators of one level group to the
   * left), its right child strictly more tightly (a looser operator is never
   * below a tighter one unless parenthesised); a unary operator applies to a
   * unary or primary expression; groups may hold any tree.
   */
  predicate Shaped(e: Expr) {
    match e
    case Binary(l, op, r) =>
      && OperatorLevel(op.kind).Some?
      && Tier(l) <= Tier(e) && Tier(r) < Tier(e)
      && Shaped(l) && Shaped(r)
    case Unary(op, r) => (op.kind == BANG || op.kind == MINUS) && Tier(r) == 0 && Shaped(r)
    case Grouping(inner) => Shaped(inner)
    case Literal(_) => true
    case _ => false
  }

  lemma OperatorsLevel(l: Level, k: TokenType)
    requires k in Operators(l)
    ensures OperatorLevel(k) == Some(l)
  {
  }

  /** Every tree a parse yields is shaped. */
  lemma {:induction false} ExprShaped(ts: seq<Token>, pos: nat)
    requires EndsWithEof(ts) && pos < |ts|
    ensures ParseExpr(ts, pos).result.Ok? ==> Shaped(ParseExpr(ts, pos).result.value)
    decreases |ts| - pos, 10
  {
    BinaryShaped(ts, pos, Equality);
  }

  /** A binary level yields a shaped tree that binds no more loosely than the level. */
  lemma {:induction false} BinaryShaped(ts: seq<Token>, pos: nat, l: Level)
    requires EndsWithEof(ts) && pos < |ts|
    ensures var r := ParseBinary(ts, pos, l);
            r.result.Ok? ==> Shaped(r.result.value) && Tier(r.result.value) <= Rank(l) + 1
    decreases |ts| - pos, 2 * Rank(l) + 3
  {
    var first := if l == Factor then ParseUnary(ts, pos) else ParseBinary(ts, pos, Tighter(l));
    if l == Factor {
      UnaryShaped(ts, pos);
    } else {
      BinaryShaped(ts, pos, Tighter(l));
    }
    if first.result.Ok? {
      MoreShaped(ts, first.next, l, first.result.value);
    }
  }

  lemma {:induction false} MoreShaped(ts: seq<Token>, pos: nat, l: Level, left: Expr)
    requires EndsWithEof(ts) && pos < |ts|
    requires Shaped(left) && Tier(left) <= Rank(l) + 1
    ensures var r := ParseMore(ts, pos, l, left);
            r.result.Ok? ==> Shaped(r.result.value) && Tier(r.result.value) <= Rank(l) + 1
    decreases |ts| - pos, 2 * Rank(l) + 2
  {
    if Matches(ts, pos, Operators(l)) {
      var right := if l == Factor then ParseUnary(ts, pos + 1) else ParseBinary(ts, pos + 1, Tighter(l));
      if l == Factor {
        UnaryShaped(ts, pos + 1);
      } else {
        BinaryShaped(ts, pos + 1, Tighter(l));
      }
      if right.result.Ok? {
        OperatorsLevel(l, ts[pos].kind);
        MoreShaped(ts, right.next, l, Binary(left, ts[pos], right.result.value));
      }
    }
  }

  /** A unary expression is shaped and binds as tightly as a primary one. */
  lemma {:induction false} UnaryShaped(ts: seq<Token>, pos: nat)
    requires EndsWithEof(ts) && pos < |ts|
    ensures var r := ParseUnary(ts, pos);
            r.result.Ok? ==> Shaped(r.result.value) && Tier(r.result.value) == 0
    decreases |ts| - pos, 1
  {
    if Matches(ts, pos, [BANG, MINUS]) {
      UnaryShaped(ts, pos + 1);
    } else {
      PrimaryShaped(ts, pos);
    }
  }

  lemma {:induction false} PrimaryShaped(ts: seq<Token>, pos: nat)
    requires EndsWithEof(ts) && pos < |ts|
    ensures var r := ParsePrimary(ts, pos);
            r.result.Ok? ==> Shaped(r.result.value) && Tier(r.result.value) == 0
    decreases |ts| - pos, 0
  {
    if !Matches(ts, pos, [FALSE, TRUE, NIL, NUMBER, STRING]) && Checks(ts, pos, LEFT_PAREN) {
      ExprShaped(ts, pos + 1);
    }
  }

  /** A level stops at a token that is none of its operators, returning the tree so far. */
  lemma MoreStops(ts: seq<Token>, pos: nat, l: Level, left: Expr)
    requires EndsWithEof(ts) && pos < |ts| && !Matches(ts, pos, Operators(l))
    ensures ParseMore(ts, pos, l, left) == Parsed(Ok(left), pos)
  {
  }

  /** A NUMBER token is a primary expression: the literal it carries. */
  lemma NumberPrimary(ts: seq<Token>, pos: nat)
    requires EndsWithEof(ts) && pos < |ts| && ts[pos].kind == NUMBER
    ensures ParsePrimary(ts, pos) == Parsed(Ok(Literal(ts[pos].literal)), pos + 1)
  {
    assert !Checks(ts, pos, FALSE) && !Checks(ts, pos, TRUE) && !Checks(ts, pos, NIL);
    assert Matches(ts, pos, [NUMBER, STRING]);
  }

  /** Without a leading '!' or '-', a unary expression is a primary one. */
  lemma UnaryPrimary(ts: seq<Token>, pos: nat)
    requires EndsWithEof(ts) && pos < |ts| && !Matches(ts, pos, [BANG, MINUS])
    ensures ParseUnary(ts, pos) == ParsePrimary(ts, pos)
  {
  }

  /** A NUMBER token is a whole unary expression. */
  lemma NumberOperand(ts: seq<Token>, pos: nat)
    requires EndsWithEof(ts) && pos < |ts| && ts[pos].kind == NUMBER
    ensures ParseUnary(ts, pos) == Parsed(Ok(Literal(ts[pos].literal)), pos + 1)
  {
    NumberPrimary(ts, pos);
    UnaryPrimary(ts, pos);
  }

  /** An operand of level `l` (a unary expression for factor) followed by none of the operators of the levels from `l` down to factor. */
  lemma OperandAlone(ts: seq<Token>, pos: nat, l: Level, e: Expr, next: nat)
    requires EndsWithEof(ts) && pos < |ts|
    requires ParseUnary(ts, pos) == Parsed(Ok(e), next) && next < |ts|
    requires forall m: Level :: Rank(m) <= Rank(l) ==> !Matches(ts, next, Operators(m))
    ensures ParseBinary(ts, pos, l) == Parsed(Ok(e), next)
    decreases Rank(l)
  {
    if l != Factor {
      OperandAlone(ts, pos, Tighter(l), e, next);
    }
    MoreStops(ts, next, l, e);
  }

  /** Above a finished operand, each looser level adds nothing. */
  lemma LevelsAbove(ts: seq<Token>, pos: nat, l: Level, e: Expr, next: nat)
    requires EndsWithEof(ts) && pos < |ts| && l != Factor
    requires ParseBinary(ts, pos, Tighter(l)) == Parsed(Ok(e), next) && next < |ts|
    requires forall m: Level :: Rank(m) <= Rank(l) ==> !Matches(ts, next, Operators(m))
    ensures ParseBinary(ts, pos, l) == Parsed(Ok(e), next)
  {
    MoreStops(ts, next, l, e);
  }

  /** `1 + 2 * 3`: the product is the right operand of the sum. */
  lemma ProductBindsTighter(one: Token, plus: Token, two: Token, star: Token, three: Token, eof: Token)
    requires one.kind == NUMBER && two.kind == NUMBER && three.kind == NUMBER
    requires plus.kind == PLUS && star.kind == STAR && eof.kind == EOF
    ensures var ts := [one, plus, two, star, three, eof];
            ParseExpr(ts, 0) == Parsed(Ok(Binary(Literal(one.literal), plus, Binary(Literal(two.literal), star, Literal(three.literal)))), 5)
  {
    var ts := [one, plus, two, star, three, eof];
    var a, b, c := Literal(one.literal), Literal(two.literal), Literal(three.literal);
    var product := Binary(b, star, c);
    var sum := Binary(a, plus, product);
    NumberOperand(ts, 0);
    NumberOperand(ts, 2);
    NumberOperand(ts, 4);
    MoreStops(ts, 1, Factor, a);
    MoreStops(ts, 5, Factor, product);
    assert ParseMore(ts, 3, Factor, b) == Parsed(Ok(product), 5);
    assert ParseBinary(ts, 2, Factor) == Parsed(Ok(product), 5);
    MoreStops(ts, 5, Term, sum);
    assert ParseMore(ts, 1, Term, a) == Parsed(Ok(sum), 5);
    assert ParseBinary(ts, 0, Term) == Parsed(Ok(sum), 5);
    LevelsAbove(ts, 0, Comparison, sum, 5);
    LevelsAbove(ts, 0, Equality, sum, 5);
  }

  /** `1 - 2 - 3`: operators of one level group to the left. */
  lemma MinusGroupsLeft(one: Token, minus1: Token, two: Token, minus2: Token, three: Token, eof: Token)
    requires one.kind == NUMBER && two.kind == NUMBER && three.kind == NUMBER
    requires minus1.kind == MINUS && minus2.kind == MINUS && eof.kind == EOF
    ensures var ts := [one, minus1, two, minus2, three, eof];
            ParseExpr(ts, 0) == Parsed(Ok(Binary(Binary(Literal(one.literal), minus1, Literal(two.literal)), minus2, Literal(three.literal))), 5)
  {
    var ts := [one, minus1, two, minus2, three, eof];
    var a, b, c := Literal(one.literal), Literal(two.literal), Literal(three.literal);
    var first := Binary(a, minus1, b);
    var diff := Binary(first, minus2, c);
    NumberOperand(ts, 0);
    NumberOperand(ts, 2);
    NumberOperand(ts, 4);
    MoreStops(ts, 1, Factor, a);
    MoreStops(ts, 3, Factor, b);
    MoreStops(ts, 5, Factor, c);
    assert ParseBinary(ts, 2, Factor) == Parsed(Ok(b), 3);
    assert ParseBinary(ts, 4, Factor) == Parsed(Ok(c), 5);
    MoreStops(ts, 5, Term, diff);
    assert ParseMore(ts, 3, Term, first) == Parsed(Ok(diff), 5);
    assert ParseMore(ts, 1, Term, a) == Parsed(Ok(diff), 5);
    assert ParseBinary(ts, 0, Term) == Parsed(Ok(diff), 5);
    LevelsAbove(ts, 0, Comparison, diff, 5);
    LevelsAbove(ts, 0, Equality, diff, 5);
  }

  /** `(1` with no closing parenthesis: the group is accepted and the cursor stays on the EOF. */
  lemma UnclosedGroupAccepted(paren: Token, one: Token, eof: Token)
    requires paren.kind == LEFT_PAREN && one.kind == NUMBER && eof.kind == EOF
    ensures ParseExpr([paren, one, eof], 0) == Parsed(Ok(Grouping(Literal(one.literal))), 2)
  {
    var ts := [paren, one, eof];
    var a := Literal(one.literal);
    NumberOperand(ts, 1);
    OperandAlone(ts, 1, Equality, a, 2);
    assert ParseExpr(ts, 1) == Parsed(Ok(a), 2);
    assert ParsePrimary(ts, 0) == Parsed(Ok(Grouping(a)), 2);
    assert ParseUnary(ts, 0) == Parsed(Ok(Grouping(a)), 2);
    OperandAlone(ts, 0, Equality, Grouping(a), 2);
  }

  /**
   * What `primary` makes of each token: the three keyword literals, the
   * literal a NUMBER or STRING token carries, a group after '(', and for any
   * other token the error "Expect expression." at that token, with the
   * cursor left on it.
   */
  lemma PrimaryCases(ts: seq<Token>, pos: nat)
    requires EndsWithEof(ts) && pos < |ts|
    ensures var r := ParsePrimary(ts, pos);
            var k := ts[pos].kind;
            && (k == FALSE ==> r == Parsed(Ok(Literal(BoolLit(false))), pos + 1))
            && (k == TRUE ==> r == Parsed(Ok(Literal(BoolLit(true))), pos + 1))
            && (k == NIL ==> r == Parsed(Ok(Literal(NilLit)), pos + 1))
            && (k == NUMBER || k == STRING ==> r == Parsed(Ok(Literal(ts[pos].literal)), pos + 1))
            && (k == LEFT_PAREN ==> r.result.Ok? ==> r.result.value.Grouping?)
            && (k !in {FALSE, TRUE, NIL, NUMBER, STRING, LEFT_PAREN} <==> r.result == Err(ParseError(ts[pos], "Expect expression.")) && r.next == pos)
  {
    var k := ts[pos].kind;
    if k == LEFT_PAREN {
      var inner := ParseExpr(ts, pos + 1);
      assert inner.result.Err? ==> inner.next > pos;
    }
  }

  // ---------------------------------------------------------------------
  // The parser

  /** Statement keywords at which error recovery stops. */
  predicate StartsStatement(k: TokenType) {
    k in {CLASS, FOR, FUN, IF, PRINT, RETURN, VAR, WHILE}
  }

  /** Recovery moves past position `k - 1` to `k` only when neither stopping point is there. */
  predicate Passed(ts: seq<Token>, k: nat)
    requires 0 < k < |ts|
  {
    ts[k].kind != EOF && ts[k - 1].kind != SEMICOLON && !StartsStatement(ts[k].kind)
  }

  class Parser {
    const tokens: seq<Token>
    var current: nat

    /** The cursor stays on a token of a list that ends with EOF. */
    ghost predicate Valid()
      reads this`current
    {
      EndsWithEof(tokens) && current < |tokens|
    }

    constructor (tokens: seq<Token>)
      requires EndsWithEof(tokens)
      ensures this.tokens == tokens && current == 0 && Valid()
    {
      this.tokens := tokens;
      current := 0;
    }

    /** Parses one expression; a failed parse yields no tree. */
    method Parse() returns (e: Option<Expr>)
      requires Valid()
      modifies this`current
      ensures Valid()
      ensures var p := ParseExpr(tokens, old(current));
              && current == p.next
              && (e.Some? <==> p.result.Ok?)
              && (e.Some? ==> e.value == p.result.value)
    {
      var r := Expression();
      if r.Err? {
        return None;
      }
      return Some(r.value);
    }

    method Expression() returns (r: Result<Expr, ParseError>)
      requires Valid()
      modifies this`current
      ensures Valid() && Parsed(r, current) == ParseExpr(tokens, old(current))
      decreases |tokens| - current, 10
    {
      r := Equality();
    }

    method Equality() returns (r: Result<Expr, ParseError>)
      requires Valid()
      modifies this`current
      ensures Valid() && Parsed(r, current) == ParseBinary(tokens, old(current), Level.Equality)
      decreases |tokens| - current, 9
    {
      var first := Comparison();
      if first.Err? {
        return first;
      }
      var expr := first.value;
      while true
        invariant Valid() && old(current) < current
        invariant ParseMore(tokens, current, Level.Equality, expr) == ParseBinary(tokens, old(current), Level.Equality)
        decreases |tokens| - current
      {
        var more := Match(Operators(Level.Equality));
        if !more {
          return Ok(expr);
        }
        var operator := Previous();
        var right := Comparison();
        if right.Err? {
          return right;
        }
        expr := Binary(expr, operator, right.value);
      }
    }

    method Comparison() returns (r: Result<Expr, ParseError>)
      requires Valid()
      modifies this`current
      ensures Valid() && Parsed(r, current) == ParseBinary(tokens, old(current), Level.Comparison)
      decreases |tokens| - current, 7
    {
      var first := Term();
      if first.Err? {
        return first;
      }
      var expr := first.value;
      while true
        invariant Valid() && old(current) < current
        invariant ParseMore(tokens, current, Level.Comparison, expr) == ParseBinary(tokens, old(current), Level.Comparison)
        decreases |tokens| - current
      {
        var more := Match(Operators(Level.Comparison));
        if !more {
          return Ok(expr);
        }
        var operator := Previous();
        var right := Term();
        if right.Err? {
          return right;
        }
        expr := Binary(expr, operator, right.value);
      }
    }

    method Term() returns (r: Result<Expr, ParseError>)
      requires Valid()
      modifies this`current
      ensures Valid() && Parsed(r, current) == ParseBinary(tokens, old(current), Level.Term)
      decreases |tokens| - current, 5
    {
      var first := Factor();
      if first.Err? {
        return first;
      }
      var expr := first.value;
      while true
        invariant Valid() && old(current) < current
        invariant ParseMore(tokens, current, Level.Term, expr) == ParseBinary(tokens, old(current), Level.Term)
        decreases |tokens| - current
      {
        var more := Match(Operators(Level.Term));
        if !more {
          return Ok(expr);
        }
        var operator := Previous();
        var right := Factor();
        if right.Err? {
          return right;
        }
        expr := Binary(expr, operator, right.value);
      }
    }

    method Factor() returns (r: Result<Expr, ParseError>)
      requires Valid()
      modifies this`current
      ensures Valid() && Parsed(r, current) == ParseBinary(tokens, old(current), Level.Factor)
      decreases |tokens| - current, 3
    {
      var first := Unary();
      if first.Err? {
        return first;
      }
      var expr := first.value;
      while true
        invariant Valid() && old(current) < current
        invariant ParseMore(tokens, current, Level.Factor, expr) == ParseBinary(tokens, old(current), Level.Factor)
        decreases |tokens| - current
      {
        var more := Match(Operators(Level.Factor));
        if !more {
          return Ok(expr);
        }
        var operator := Previous();
        var right := Unary();
        if right.Err? {
          return right;
        }
        expr := Binary(expr, operator, right.value);
      }
    }

    method Unary() returns (r: Result<Expr, ParseError>)
      requires Valid()
      modifies this`current
      ensures Valid() && Parsed(r, current) == ParseUnary(tokens, old(current))
      decreases |tokens| - current, 2
    {
      var prefix := Match([BANG, MINUS]);
      if prefix {
        var operator := Previous();
        var right := Unary();
        if right.Err? {
          return right;
        }
        return Ok(Expr.Unary(operator, right.value));
      }
      r := Primary();
    }

    method Primary() returns (r: Result<Expr, ParseError>)
      requires Valid()
      modifies this`current
      ensures Valid() && Parsed(r, current) == ParsePrimary(tokens, old(current))
      decreases |tokens| - current, 1
    {
      var m := Match([FALSE]);
      if m {
        return Ok(Literal(BoolLit(false)));
      }
      m := Match([TRUE]);
      if m {
        return Ok(Literal(BoolLit(true)));
      }
      m := Match([NIL]);
      if m {
        return Ok(Literal(NilLit));
      }
      m := Match([NUMBER, STRING]);
      if m {
        var t := Previous();
        return Ok(Literal(t.literal));
      }
      m := Match([LEFT_PAREN]);
      if m {
        var inner := Expression();
        if inner.Err? {
          return inner;
        }
        var _ := Consume(RIGHT_PAREN, "Expect ')' after expression.");
        return Ok(Grouping(inner.value));
      }
      return Err(ParseError(Peek(), "Expect expression."));
    }

    /** Consumes one token when its type is among `kinds`, trying them in order. */
    method Match(kinds: seq<TokenType>) returns (matched: bool)
      requires Valid()
      modifies this`current
      ensures Valid()
      ensures matched <==> Matches(tokens, old(current), kinds)
      ensures current == if matched then old(current) + 1 else old(current)
    {
      for i := 0 to |kinds|
        invariant current == old(current)
        invariant forall j :: 0 <= j < i ==> !Checks(tokens, current, kinds[j])
      {
        if Check(kinds[i]) {
          var _ := Advance();
          return true;
        }
      }
      return false;
    }

    /** Consumes a token of type `k`, or reports `message` at the current token and stays. */
    method Consume(k: TokenType, message: string) returns (r: Result<Token, ParseError>)
      requires Valid()
      modifies this`current
      ensures Valid()
      ensures r.Ok? <==> Checks(tokens, old(current), k)
      ensures r.Ok? ==> r.value == tokens[old(current)] && current == old(current) + 1
      ensures r.Err? ==> r.error == ParseError(tokens[old(current)], message) && current == old(current)
    {
      if Check(k) {
        var t := Advance();
        return Ok(t);
      }
      return Err(ParseError(Peek(), message));
    }

    /** Whether the current token has type `k`; false at the end whatever `k` is. */
    predicate Check(k: TokenType)
      requires Valid()
      reads this`current
    {
      if IsAtEnd() then false else Peek().kind == k
    }

    /**
     * Moves past the current token unless it is the EOF, and returns the
     * token before the cursor. At the first token of an empty source there
     * is no such token, so the cursor must have moved or be past the start.
     */
    method Advance() returns (t: Token)
      requires Valid() && (!IsAtEnd() || current > 0)
      modifies this`current
      ensures Valid()
      ensures current == if old(IsAtEnd()) then old(current) else old(current) + 1
      ensures current > 0 && t == tokens[current - 1]
    {
      if !IsAtEnd() {
        current := current + 1;
      }
      return Previous();
    }

    predicate IsAtEnd()
      requires Valid()
      reads this`current
    {
      Peek().kind == EOF
    }

    function Peek(): Token
      requires Valid()
      reads this`current
    {
      tokens[current]
    }

    function Previous(): Token
      requires Valid() && current > 0
      reads this`current
    {
      tokens[current - 1]
    }

    /**
     * Error recovery: skips tokens until just after a ';', just before a
     * statement keyword, or the end, whichever comes first after the
     * current token.
     */
    method Synchronize()
      requires Valid() && (!IsAtEnd() || current > 0)
      modifies this`current
      ensures Valid() && old(current) <= current && current > 0
      ensures IsAtEnd() || Previous().kind == SEMICOLON || StartsStatement(Peek().kind)
      ensures forall k :: old(current) < k < current ==> Passed(tokens, k)
    {
      var _ := Advance();
      while !IsAtEnd()
        invariant Valid() && old(current) <= current && current > 0
        invariant current == old(current) ==> IsAtEnd()
        invariant forall k :: old(current) < k < current ==> Passed(tokens, k)
        decreases |tokens| - current
      {
        if Previous().kind == SEMICOLON {
          return;
        }
        if StartsStatement(Peek().kind) {
          return;
        }
        var _ := Advance();
      }
    }
  }
}
