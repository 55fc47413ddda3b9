/**
 * The expression printer: a Lisp-like rendering of a syntax tree, where an
 * operator node prints as its operator's lexeme followed by its operands,
 * all between one pair of parentheses. The printer gives its own rendering
 * to four node kinds (binary, grouping, literal, unary); every other node
 * prints in the host's default formatting.
 *
 * The host's formatting of numbers and its default formatting of the other
 * nodes are not described by this model: both are parameters.
 */
module Printer {
  import opened Tokens
  import opened Syntax

  /** How the host formats a number, and a node the printer has no rendering for. */
  datatype Formatting = Formatting(number: real -> string, other: Expr -> string)

  /** The text of a literal value: `nil`, `true`/`false`, the string itself, or the number's text. */
  function LiteralText(v: LiteralValue, host: Formatting): string {
    match v
    case NilLit => "nil"
    case BoolLit(b) => if b then "true" else "false"
    case StrLit(s) => s
    case NumLit(n) => host.number(n)
  }

  /** Each part preceded by one space. */
  function Spaced(parts: seq<string>): string {
    if parts == [] then "" else Spaced(parts[..|parts| - 1]) + " " + parts[|parts| - 1]
  }

  /** `(name p1 p2 ... pn)`: the name, then each part after one space, in order. */
  function Parenthesized(name: string, parts: seq<string>): string {
    "(" + name + Spaced(parts) + ")"
  }

  /** The rendering of a tree. */
  function Render(e: Expr, host: Formatting): string {
    match e
    case Binary(l, op, r) => Parenthesized(op.lexeme, [Render(l, host), Render(r, host)])
    case Grouping(inner) => Parenthesized("group", [Render(inner, host)])
    case Literal(v) => LiteralText(v, host)
    case Unary(op, r) => Parenthesized(op.lexeme, [Render(r, host)])
    case _ => host.other(e)
  }

  /** The renderings of several trees, in order. */
  function RenderAll(es: seq<Expr>, host: Formatting): seq<string> {
    if es == [] then [] else RenderAll(es[..|es| - 1], host) + [Render(es[|es| - 1], host)]
  }

  /**
   * Renders a node named `name` with the given operands: the opening
   * parenthesis and the name, each operand after a space, then the closing
   * parenthesis.
   */
  method Parenthesize(name: string, exprs: seq<Expr>, host: Formatting) returns (s: string)
    ensures s == Parenthesized(name, RenderAll(exprs, host))
  {
    s := "(" + name;
    for i := 0 to |exprs|
      invariant s == "(" + name + Spaced(RenderAll(exprs[..i], host))
    {
      assert exprs[..i + 1][..i] == exprs[..i];
      s := s + " " + Render(exprs[i], host);
    }
    assert exprs[..|exprs|] == exprs;
    s := s + ")";
  }

  /** The renderings of a list are the renderings of its trees, one for one and in order. */
  lemma {:induction false} RenderAllParts(es: seq<Expr>, host: Formatting)
    ensures |RenderAll(es, host)| == |es|
    ensures forall i :: 0 <= i < |es| ==> RenderAll(es, host)[i] == Render(es[i], host)
    decreases |es|
  {
    if es != [] {
      RenderAllParts(es[..|es| - 1], host);
    }
  }

  lemma RenderOne(x: Expr, host: Formatting)
    ensures RenderAll([x], host) == [Render(x, host)]
  {
    assert [x][..0] == [];
  }

  lemma RenderTwo(x: Expr, y: Expr, host: Formatting)
    ensures RenderAll([x, y], host) == [Render(x, host), Render(y, host)]
  {
    assert [x, y][..1] == [x];
    RenderOne(x, host);
  }

  /** The three operator node kinds print as their `parenthesize` of a name and their operands. */
  lemma OperatorNodes(e: Expr, host: Formatting)
    requires e.Binary? || e.Grouping? || e.Unary?
    ensures var operands := if e.Binary? then [e.left, e.right] else if e.Grouping? then [e.expression] else [e.right];
            var name := if e.Grouping? then "group" else e.operator.lexeme;
            Render(e, host) == Parenthesized(name, RenderAll(operands, host))
  {
    if e.Binary? {
      RenderTwo(e.left, e.right, host);
    } else if e.Grouping? {
      RenderOne(e.expression, host);
    } else {
      RenderOne(e.right, host);
    }
  }

  /** The printer's own sample tree, `-123 * (45.67)`, prints as `(* (- 123) (group 45.67))`. */
  lemma SampleTree(minus: Token, star: Token, host: Formatting)
    requires minus.lexeme == "-" && star.lexeme == "*"
    requires host.number(123.0) == "123" && host.number(45.67) == "45.67"
    ensures Render(Binary(Unary(minus, Literal(NumLit(123.0))), star, Grouping(Literal(NumLit(45.67)))), host)
            == "(* (- 123) (group 45.67))"
  {
    SampleOperands(minus, host);
    SampleText();
  }

  lemma SampleText()
    ensures Parenthesized("*", ["(- 123)", "(group 45.67)"]) == "(* (- 123) (group 45.67))"
  {
    SpacedTwo("(- 123)", "(group 45.67)");
  }

  lemma SampleOperands(minus: Token, host: Formatting)
    requires minus.lexeme == "-"
    requires host.number(123.0) == "123" && host.number(45.67) == "45.67"
    ensures Render(Unary(minus, Literal(NumLit(123.0))), host) == "(- 123)"
    ensures Render(Grouping(Literal(NumLit(45.67))), host) == "(group 45.67)"
  {
    SpacedOne("123");
    assert Parenthesized("-", ["123"]) == "(- 123)";
    SpacedOne("45.67");
    assert Parenthesized("group", ["45.67"]) == "(group 45.67)";
  }

  lemma SpacedOne(a: string)
    ensures Spaced([a]) == " " + a
  {
    assert [a][..0] == [];
  }

  lemma SpacedTwo(a: string, b: string)
    ensures Spaced([a, b]) == " " + a + " " + b
  {
    assert [a, b][..1] == [a];
    SpacedOne(a);
  }

  // ---------------------------------------------------------------------
  // Balance

  /** How many times `c` occurs in `s`. */
  function Count(c: char, s: string): nat {
    if s == [] then 0 else Count(c, s[..|s| - 1]) + (if s[|s| - 1] == c then 1 else 0)
  }

  /** The number of nodes that print a pair of parentheses. */
  function Pairs(e: Expr): nat {
    match e
    case Binary(l, _, r) => 1 + Pairs(l) + Pairs(r)
    case Grouping(inner) => 1 + Pairs(inner)
    case Unary(_, r) => 1 + Pairs(r)
    case _ => 0
  }

  /** No parenthesis occurs in `s`. */
  predicate ParenFree(s: string) {
    '(' !in s && ')' !in s
  }

  /**
   * Every operator lexeme, literal text and text of a node in the host's
   * default formatting is free of parentheses.
   */
  predicate PlainLeaves(e: Expr, host: Formatting) {
    match e
    case Binary(l, op, r) => ParenFree(op.lexeme) && PlainLeaves(l, host) && PlainLeaves(r, host)
    case Grouping(inner) => PlainLeaves(inner, host)
    case Literal(v) => ParenFree(LiteralText(v, host))
    case Unary(op, r) => ParenFree(op.lexeme) && PlainLeaves(r, host)
    case _ => ParenFree(host.other(e))
  }

  lemma {:induction false} CountConcat(c: char, a: string, b: string)
    ensures Count(c, a + b) == Count(c, a) + Count(c, b)
    decreases |b|
  {
    if b != [] {
      assert (a + b)[..|a + b| - 1] == a + b[..|b| - 1];
      CountConcat(c, a, b[..|b| - 1]);
    } else {
      assert a + b == a;
    }
  }

  /** A character that does not occur is counted zero times. */
  lemma {:induction false} CountAbsent(c: char, s: string)
    requires c !in s
    ensures Count(c, s) == 0
    decreases |s|
  {
    if s != [] {
      assert forall i :: 0 <= i < |s| - 1 ==> s[..|s| - 1][i] == s[i];
      CountAbsent(c, s[..|s| - 1]);
    }
  }

  /** The occurrences of `c` in the parts, summed. */
  function SumCounts(parts: seq<string>, c: char): nat {
    if parts == [] then 0 else SumCounts(parts[..|parts| - 1], c) + Count(c, parts[|parts| - 1])
  }

  /** The spaces between parts add no parenthesis. */
  lemma {:induction false} SpacedCounts(parts: seq<string>, c: char)
    requires c != ' '
    ensures Count(c, Spaced(parts)) == SumCounts(parts, c)
  {
    if parts != [] {
      SpacedCounts(parts[..|parts| - 1], c);
      CountConcat(c, Spaced(parts[..|parts| - 1]), " ");
      CountConcat(c, Spaced(parts[..|parts| - 1]) + " ", parts[|parts| - 1]);
    }
  }

  /** The parentheses of a rendered node: its own pair plus those of its parts. */
  lemma ParenthesizedCounts(name: string, parts: seq<string>, c: char)
    requires ParenFree(name) && (c == '(' || c == ')')
    ensures Count(c, Parenthesized(name, parts)) == 1 + SumCounts(parts, c)
  {
    SpacedCounts(parts, c);
    CountAbsent(c, name);
    CountConcat(c, "(", name);
    CountConcat(c, "(" + name, Spaced(parts));
    CountConcat(c, "(" + name + Spaced(parts), ")");
  }

  lemma SumCountsOne(a: string, c: char)
    ensures SumCounts([a], c) == Count(c, a)
  {
    assert [a][..0] == [];
  }

  lemma SumCountsTwo(a: string, b: string, c: char)
    ensures SumCounts([a, b], c) == Count(c, a) + Count(c, b)
  {
    assert [a, b][..1] == [a];
    SumCountsOne(a, c);
  }

  /** A grouping node: its own pair plus the parentheses of its operand. */
  lemma GroupingCounts(e: Expr, host: Formatting, c: char)
    requires e.Grouping?
    requires c == '(' || c == ')'
    ensures Count(c, Render(e, host)) == 1 + Count(c, Render(e.expression, host))
  {
    var a := Render(e.expression, host);
    assert Render(e, host) == Parenthesized("group", [a]);
    assert ParenFree("group");
    SumCountsOne(a, c);
    ParenthesizedCounts("group", [a], c);
  }

  /** A unary node: its own pair plus the parentheses of its operand. */
  lemma UnaryCounts(e: Expr, host: Formatting, c: char)
    requires e.Unary? && ParenFree(e.operator.lexeme)
    requires c == '(' || c == ')'
    ensures Count(c, Render(e, host)) == 1 + Count(c, Render(e.right, host))
  {
    var a := Render(e.right, host);
    SumCountsOne(a, c);
    ParenthesizedCounts(e.operator.lexeme, [a], c);
  }

  /** A binary node: its own pair plus the parentheses of its two operands. */
  lemma TwoOperandCounts(e: Expr, host: Formatting, c: char)
    requires e.Binary? && ParenFree(e.operator.lexeme)
    requires c == '(' || c == ')'
    ensures Count(c, Render(e, host)) == 1 + Count(c, Render(e.left, host)) + Count(c, Render(e.right, host))
  {
    var a, b := Render(e.left, host), Render(e.right, host);
    SumCountsTwo(a, b, c);
    ParenthesizedCounts(e.operator.lexeme, [a, b], c);
  }

  /**
   * When no leaf text holds a parenthesis, a rendering holds exactly one
   * '(' and one ')' per binary, grouping and unary node.
   */
  lemma {:induction false} Balanced(e: Expr, host: Formatting, c: char)
    requires PlainLeaves(e, host)
    requires c == '(' || c == ')'
    ensures Count(c, Render(e, host)) == Pairs(e)
  {
    match e
    case Binary(l, op, r) =>
      Balanced(l, host, c);
      Balanced(r, host, c);
      TwoOperandCounts(e, host, c);
    case Grouping(inner) =>
      Balanced(inner, host, c);
      GroupingCounts(e, host, c);
    case Unary(op, r) =>
      Balanced(r, host, c);
      UnaryCounts(e, host, c);
    case Literal(v) =>
      CountAbsent(c, LiteralText(v, host));
    case _ =>
      CountAbsent(c, host.other(e));
  }

  // ---------------------------------------------------------------------
  // Nesting

  /** The depth after `s`: the parentheses it opens minus those it closes. */
  function Depth(s: string): int {
    Count('(', s) - Count(')', s)
  }

  /** Every prefix of `s` ends at depth `m` or deeper. */
  predicate Above(s: string, m: int) {
    forall k :: 0 <= k <= |s| ==> Depth(s[..k]) >= m
  }

  /** No prefix of `s` closes more parentheses than it opens, and `s` closes all it opens. */
  predicate Nested(s: string) {
    (forall k :: 0 <= k <= |s| ==> Count(')', s[..k]) <= Count('(', s[..k])) && Count(')', s) == Count('(', s)
  }

  lemma NestedDepth(s: string)
    ensures Nested(s) <==> Above(s, 0) && Depth(s) == 0
  {
    assert s[..|s|] == s;
  }

  /** Text after a prefix that stays at depth `m` or deeper, and itself stays at `n` or deeper. */
  lemma AboveConcat(a: string, b: string, m: int, n: int)
    requires Above(a, m) && Above(b, n) && m <= Depth(a) + n
    ensures Above(a + b, m)
    ensures Depth(a + b) == Depth(a) + Depth(b)
  {
    CountConcat('(', a, b);
    CountConcat(')', a, b);
    forall k | 0 <= k <= |a + b|
      ensures Depth((a + b)[..k]) >= m
    {
      if k <= |a| {
        assert (a + b)[..k] == a[..k];
      } else {
        assert (a + b)[..k] == a + b[..k - |a|];
        assert a[..|a|] == a;
        CountConcat('(', a, b[..k - |a|]);
        CountConcat(')', a, b[..k - |a|]);
      }
    }
  }

  /** A text without parentheses stays at depth 0. */
  lemma Flat(s: string)
    requires ParenFree(s)
    ensures Above(s, 0) && Depth(s) == 0
  {
    forall k | 0 <= k <= |s|
      ensures Depth(s[..k]) == 0
    {
      assert forall i :: 0 <= i < k ==> s[..k][i] == s[i];
      CountAbsent('(', s[..k]);
      CountAbsent(')', s[..k]);
    }
    assert s[..|s|] == s;
  }

  lemma Brackets()
    ensures Above("(", 0) && Depth("(") == 1
    ensures Above(")", -1) && Depth(")") == -1
  {
    assert "("[..0] == "" && "("[..1] == "(";
    assert ")"[..0] == "" && ")"[..1] == ")";
  }

  /** Nested parts, separated by spaces, stay nested. */
  lemma {:induction false} SpacedNested(parts: seq<string>)
    requires forall i :: 0 <= i < |parts| ==> Nested(parts[i])
    ensures Nested(Spaced(parts))
    decreases |parts|
  {
    if parts == [] {
      assert Spaced(parts)[..0] == "";
    } else {
      var init, last := parts[..|parts| - 1], parts[|parts| - 1];
      assert forall i :: 0 <= i < |init| ==> init[i] == parts[i];
      SpacedNested(init);
      NestedDepth(Spaced(init));
      NestedDepth(last);
      assert ParenFree(" ");
      Flat(" ");
      AboveConcat(Spaced(init), " ", 0, 0);
      AboveConcat(Spaced(init) + " ", last, 0, 0);
      NestedDepth(Spaced(parts));
    }
  }

  /** A node whose parts are nested opens one pair around them, so it is nested too. */
  lemma ParenthesizedNested(name: string, parts: seq<string>)
    requires ParenFree(name)
    requires forall i :: 0 <= i < |parts| ==> Nested(parts[i])
    ensures Nested(Parenthesized(name, parts))
  {
    Brackets();
    Flat(name);
    SpacedNested(parts);
    NestedDepth(Spaced(parts));
    AboveConcat("(", name, 0, 0);
    AboveConcat("(" + name, Spaced(parts), 0, 0);
    AboveConcat("(" + name + Spaced(parts), ")", 0, -1);
    NestedDepth(Parenthesized(name, parts));
  }

  /**
   * When no leaf text holds a parenthesis, a rendering's parentheses nest:
   * no prefix closes more than it opens, and the whole text closes all it
   * opens.
   */
  lemma {:induction false} RenderNested(e: Expr, host: Formatting)
    requires PlainLeaves(e, host)
    ensures Nested(Render(e, host))
  {
    match e
    case Binary(l, op, r) =>
      RenderNested(l, host);
      RenderNested(r, host);
      ParenthesizedNested(op.lexeme, [Render(l, host), Render(r, host)]);
    case Grouping(inner) =>
      RenderNested(inner, host);
      assert ParenFree("group");
      ParenthesizedNested("group", [Render(inner, host)]);
    case Unary(op, r) =>
      RenderNested(r, host);
      ParenthesizedNested(op.lexeme, [Render(r, host)]);
    case Literal(v) =>
      Flat(LiteralText(v, host));
      NestedDepth(LiteralText(v, host));
    case _ =>
      Flat(host.other(e));
      NestedDepth(host.other(e));
  }
}
