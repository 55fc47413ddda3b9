/**
 * The lexer. `Lex` says what one step of the scanner makes of the text at a
 * position and `Tokenize` what the whole scan makes of it; the class
 * `Scanner` is the cursor-driven implementation, proved to follow them: its
 * `start` marks the first byte of the lexeme being scanned, `current` the
 * next byte to read and `line` the line `current` is on.
 */
module Lexer {
  import opened Wrappers
  import opened Tokens

  /** An error the scanner reports (to the driver) before it scans on. */
  datatype ScanError = ScanError(line: int, message: string)

  /** How many newline bytes the first `n` bytes of `s` hold. */
  function Newlines(s: seq<Byte>, n: nat): nat
    requires n <= |s|
  {
    if n == 0 then 0 else Newlines(s, n - 1) + (if s[n - 1] == '\n' then 1 else 0)
  }

  lemma NewlinesStep(s: seq<Byte>, k: nat)
    requires k < |s|
    ensures Newlines(s, k + 1) == Newlines(s, k) + (if s[k] == '\n' then 1 else 0)
  {
  }

  /** Newlines are only ever added: a later position is on the same line or a later one. */
  lemma {:induction false} NewlinesMonotone(s: seq<Byte>, a: nat, b: nat)
    requires a <= b <= |s|
    ensures Newlines(s, a) <= Newlines(s, b)
    decreases b - a
  {
    if a < b {
      NewlinesMonotone(s, a, b - 1);
    }
  }

  lemma SliceOfSlice(s: seq<Byte>, a: nat, b: nat, i: nat, j: nat)
    requires a <= b <= |s| && i <= j <= b - a
    ensures s[a..b][i..j] == s[a + i..a + j]
  {
    assert forall k :: 0 <= k < j - i ==> s[a..b][i..j][k] == s[a + i + k];
  }

  predicate IsPunctuation(c: Byte) {
    c == '(' || c == ')' || c == '{' || c == '}' || c == ',' || c == '.' || c == '-' || c == '+' || c == ';' || c == '*'
  }

  predicate IsOperator(c: Byte) {
    c == '!' || c == '=' || c == '<' || c == '>'
  }

  predicate IsBlank(c: Byte) {
    c == ' ' || c == '\r' || c == '\t'
  }

  /** Which case of `scanToken` a first byte selects. */
  datatype ByteClass = Punctuation | Operator | Slash | Blank | Newline | Quote | Digit | Letter | Unexpected

  function Category(c: Byte): ByteClass
  {
    if IsPunctuation(c) then Punctuation
    else if IsOperator(c) then Operator
    else if c == '/' then Slash
    else if IsBlank(c) then Blank
    else if c == '\n' then Newline
    else if c == '"' then Quote
    else if IsDigit(c) then Digit
    else if IsAlpha(c) then Letter
    else Unexpected
  }

  /** The type of the token an operator byte starts, with or without a following '='. */
  function OperatorKind(c: Byte, withEqual: bool): TokenType
    requires IsOperator(c)
  {
    match c
    case '!' => if withEqual then BANG_EQUAL else BANG
    case '=' => if withEqual then EQUAL_EQUAL else EQUAL
    case '<' => if withEqual then LESS_EQUAL else LESS
    case '>' => if withEqual then GREATER_EQUAL else GREATER
  }

  /** The type of a token made of one punctuation byte. */
  function PunctuationKind(c: Byte): TokenType
    requires IsPunctuation(c)
  {
    match c
    case '(' => LEFT_PAREN case ')' => RIGHT_PAREN
    case '{' => LEFT_BRACE case '}' => RIGHT_BRACE
    case ',' => COMMA case '.' => DOT case '-' => MINUS
    case '+' => PLUS case ';' => SEMICOLON case '*' => STAR
  }

  /** The runs of bytes the scanner's loops skip over. */
  datatype Run = Digits | WordBytes | LineBody | StringBody

  predicate InRun(run: Run, c: Byte) {
    match run
    case Digits => IsDigit(c)
    case WordBytes => IsAlphaNumeric(c)
    case LineBody => c != '\n'
    case StringBody => c != '"'
  }

  /** The first position at or after `i` whose byte is not in `run`, or the end of `s`. */
  function SpanWhile(s: seq<Byte>, i: nat, run: Run): (j: nat)
    requires i <= |s|
    ensures i <= j <= |s|
    ensures j == |s| || !InRun(run, s[j])
    decreases |s| - i
  {
    if i < |s| && InRun(run, s[i]) then SpanWhile(s, i + 1, run) else i
  }

  /** Every byte `SpanWhile` passes over belongs to the run. */
  lemma {:induction false} SpanWhileRun(s: seq<Byte>, i: nat, run: Run)
    requires i <= |s|
    ensures forall k :: i <= k < SpanWhile(s, i, run) ==> InRun(run, s[k])
    decreases |s| - i
  {
    if i < |s| && InRun(run, s[i]) {
      SpanWhileRun(s, i + 1, run);
    }
  }

  /** A star-slash pair starts at `k`. */
  predicate ClosesComment(s: seq<Byte>, k: nat) {
    k + 1 < |s| && s[k] == '*' && s[k + 1] == '/'
  }

  /** The first position at or after `i` where a star-slash starts, or the end of `s`. */
  function CommentEnd(s: seq<Byte>, i: nat): (j: nat)
    requires i <= |s|
    ensures i <= j <= |s|
    ensures j == |s| || ClosesComment(s, j)
    decreases |s| - i
  {
    if i == |s| || ClosesComment(s, i) then i else CommentEnd(s, i + 1)
  }

  /** No star-slash starts before the one `CommentEnd` finds. */
  lemma {:induction false} CommentEndFirst(s: seq<Byte>, i: nat)
    requires i <= |s|
    ensures forall k :: i <= k < CommentEnd(s, i) ==> !ClosesComment(s, k)
    decreases |s| - i
  {
    if !(i == |s| || ClosesComment(s, i)) {
      CommentEndFirst(s, i + 1);
    }
  }

  /** Where the digits of a number that continue at `i` end: a fraction is taken only when a digit follows the '.'. */
  function NumberEnd(s: seq<Byte>, i: nat): nat
    requires i <= |s|
  {
    var d := SpanWhile(s, i, Digits);
    if d + 1 < |s| && s[d] == '.' && IsDigit(s[d + 1]) then SpanWhile(s, d + 1, Digits) else d
  }

  lemma NumberEndFraction(s: seq<Byte>, i: nat, d: nat, e: nat)
    requires i <= |s| && d == SpanWhile(s, i, Digits) && d + 1 < |s| && s[d] == '.' && IsDigit(s[d + 1])
    requires e == SpanWhile(s, d + 1, Digits)
    ensures NumberEnd(s, i) == e
  {
  }

  lemma NumberEndInteger(s: seq<Byte>, i: nat, d: nat)
    requires i <= |s| && d == SpanWhile(s, i, Digits) && !(d + 1 < |s| && s[d] == '.' && IsDigit(s[d + 1]))
    ensures NumberEnd(s, i) == d
  {
  }

  /**
   * What one step of the scanner makes of the text at `start`: where the
   * lexeme ends, the token it adds (type and literal) if any, and the error
   * it reports if any.
   */
  datatype Lexeme = Lexeme(end: nat, token: Option<(TokenType, LiteralValue)>, error: Option<string>)

  function Lex(s: seq<Byte>, start: nat): (r: Lexeme)
    requires start < |s|
    ensures start < r.end <= |s|
  {
    var c := s[start];
    match Category(c)
    case Punctuation => Lexeme(start + 1, Some((PunctuationKind(c), NilLit)), None)
    case Operator =>
      var two := start + 1 < |s| && s[start + 1] == '=';
      Lexeme(if two then start + 2 else start + 1, Some((OperatorKind(c, two), NilLit)), None)
    case Slash =>
      if start + 1 < |s| && s[start + 1] == '/' then
        Lexeme(SpanWhile(s, start + 2, LineBody), None, None)
      else if start + 1 < |s| && s[start + 1] == '*' then
        var e := CommentEnd(s, start + 2);
        if e == |s| then Lexeme(e, None, Some("Unterminated multiline comment.")) else Lexeme(e + 2, None, None)
      else
        Lexeme(start + 1, Some((SLASH, NilLit)), None)
    case Blank => Lexeme(start + 1, None, None)
    case Newline => Lexeme(start + 1, None, None)
    case Quote =>
      var e := SpanWhile(s, start + 1, StringBody);
      if e == |s| then Lexeme(e, None, Some("Unterminated string."))
      else Lexeme(e + 1, Some((STRING, StrLit(s[start + 1..e]))), None)
    case Digit =>
      var e := NumberEnd(s, start + 1);
      Lexeme(e, Some((NUMBER, NumLit(NumberValue(s[start..e])))), None)
    case Letter =>
      var e := SpanWhile(s, start + 1, WordBytes);
      Lexeme(e, Some((IdentifierKind(s[start..e]), NilLit)), None)
    case Unexpected => Lexeme(start + 1, None, Some("Unexpected character."))
  }

  /** The token a lexeme adds: its text is what the lexeme spans, its line the line the lexeme ends on. */
  function Emitted(s: seq<Byte>, start: nat, r: Lexeme): seq<Token>
    requires start <= r.end <= |s|
  {
    match r.token
    case None => []
    case Some(t) => [Token(t.0, s[start..r.end], t.1, 1 + Newlines(s, r.end))]
  }

  /** The error a lexeme reports, on the line the lexeme ends on. */
  function Reported(s: seq<Byte>, r: Lexeme): seq<ScanError>
    requires r.end <= |s|
  {
    match r.error
    case None => []
    case Some(m) => [ScanError(1 + Newlines(s, r.end), m)]
  }

  /** The tokens and errors of scanning `s` from position `i` to its end, lexeme after lexeme. */
  function Tokenize(s: seq<Byte>, i: nat): (seq<Token>, seq<ScanError>)
    requires i <= |s|
    decreases |s| - i
  {
    if i == |s| then ([], [])
    else
      var r := Lex(s, i);
      var rest := Tokenize(s, r.end);
      (Emitted(s, i, r) + rest.0, Reported(s, r) + rest.1)
  }

  /** Where each token of `Tokenize(s, i)` was cut from. */
  function Cuts(s: seq<Byte>, i: nat): seq<(nat, nat)>
    requires i <= |s|
    decreases |s| - i
  {
    if i == |s| then []
    else
      var r := Lex(s, i);
      (if r.token.Some? then [(i, r.end)] else []) + Cuts(s, r.end)
  }

  /**
   * One step of a scan at `start`: the cursor moves to `cur`, the end of the
   * lexeme there, and its token and its error are appended to `t0` and `e0`.
   */
  predicate Steps(s: seq<Byte>, start: nat, cur: nat, t0: seq<Token>, t: seq<Token>, e0: seq<ScanError>, e: seq<ScanError>)
    requires start < |s|
  {
    var r := Lex(s, start);
    cur == r.end && t == t0 + Emitted(s, start, r) && e == e0 + Reported(s, r)
  }

  /** After one step, scanning on from the new cursor completes the scan from the old one. */
  lemma StepsTokenize(s: seq<Byte>, start: nat, cur: nat, t0: seq<Token>, t: seq<Token>, e0: seq<ScanError>, e: seq<ScanError>)
    requires start < |s| && Steps(s, start, cur, t0, t, e0, e)
    ensures cur <= |s|
    ensures t + Tokenize(s, cur).0 == t0 + Tokenize(s, start).0
    ensures e + Tokenize(s, cur).1 == e0 + Tokenize(s, start).1
  {
    var r := Lex(s, start);
    TokenizeUnfold(s, start);
    Associative(t0, Emitted(s, start, r), Tokenize(s, cur).0);
    Associative(e0, Reported(s, r), Tokenize(s, cur).1);
  }

  lemma TokenizeUnfold(s: seq<Byte>, i: nat)
    requires i < |s|
    ensures var r := Lex(s, i);
      && r.end <= |s|
      && Tokenize(s, i).0 == Emitted(s, i, r) + Tokenize(s, r.end).0
      && Tokenize(s, i).1 == Reported(s, r) + Tokenize(s, r.end).1
  {
  }

  lemma Associative<T>(a: seq<T>, b: seq<T>, c: seq<T>)
    ensures (a + b) + c == a + (b + c)
  {
  }

  // What each helper of `scanToken` leaves behind, in its own terms: the
  // cursor `cur` after the lexeme at `start`, the tokens `t` and errors `e`
  // after `t0` and `e0`, and the line `ln` the cursor is then on.

  /** An operator byte, joined by a following '=' when there is one, became one token. */
  predicate ScannedOperator(s: seq<Byte>, start: nat, cur: nat, t0: seq<Token>, t: seq<Token>, ln: int) {
    && start < |s| && IsOperator(s[start]) && cur <= |s| && ln == 1 + Newlines(s, cur)
    && var two := start + 1 < |s| && s[start + 1] == '=';
       cur == (if two then start + 2 else start + 1)
       && t == t0 + [Token(OperatorKind(s[start], two), s[start..cur], NilLit, ln)]
  }

  /**
   * A '/' began a line comment (skipped up to the newline), a block comment
   * (skipped past its star-slash, or to the end with an error), or the SLASH token.
   */
  predicate ScannedSlash(s: seq<Byte>, start: nat, cur: nat, t0: seq<Token>, t: seq<Token>, e0: seq<ScanError>, e: seq<ScanError>, ln: int) {
    && start < |s| && s[start] == '/' && cur <= |s| && ln == 1 + Newlines(s, cur)
    && (start + 1 < |s| && s[start + 1] == '/' ==>
          cur == SpanWhile(s, start + 2, LineBody) && t == t0 && e == e0)
    && (start + 1 < |s| && s[start + 1] == '*' ==>
          var c := CommentEnd(s, start + 2);
          && t == t0
          && cur == (if c == |s| then c else c + 2)
          && e == e0 + (if c == |s| then [ScanError(ln, "Unterminated multiline comment.")] else []))
    && (!(start + 1 < |s| && (s[start + 1] == '/' || s[start + 1] == '*')) ==>
          cur == start + 1 && t == t0 + [Token(SLASH, s[start..cur], NilLit, ln)] && e == e0)
  }

  /** A '"' began a string: a STRING token up to the closing quote, or an error at the end of the text. */
  predicate ScannedString(s: seq<Byte>, start: nat, cur: nat, t0: seq<Token>, t: seq<Token>, e0: seq<ScanError>, e: seq<ScanError>, ln: int) {
    && start < |s| && s[start] == '"' && cur <= |s| && ln == 1 + Newlines(s, cur)
    && var q := SpanWhile(s, start + 1, StringBody);
       if q == |s| then
         cur == q && t == t0 && e == e0 + [ScanError(ln, "Unterminated string.")]
       else
         cur == q + 1 && e == e0 && t == t0 + [Token(STRING, s[start..cur], StrLit(s[start + 1..q]), ln)]
  }

  /** A digit began a number: a NUMBER token with the value its digits spell. */
  predicate ScannedNumber(s: seq<Byte>, start: nat, cur: nat, t0: seq<Token>, t: seq<Token>, ln: int) {
    && start < |s| && IsDigit(s[start]) && cur == NumberEnd(s, start + 1) && ln == 1 + Newlines(s, cur)
    && t == t0 + [Token(NUMBER, s[start..cur], NumLit(NumberValue(s[start..cur])), ln)]
  }

  /** A letter began a word: a keyword's token if the word is reserved, else an IDENTIFIER. */
  predicate ScannedWord(s: seq<Byte>, start: nat, cur: nat, t0: seq<Token>, t: seq<Token>, ln: int) {
    && start < |s| && IsAlpha(s[start]) && cur == SpanWhile(s, start + 1, WordBytes) && ln == 1 + Newlines(s, cur)
    && t == t0 + [Token(IdentifierKind(s[start..cur]), s[start..cur], NilLit, ln)]
  }

  // Each case of `scanToken` is the step `Lex` describes.

  lemma StepPunctuation(s: seq<Byte>, start: nat, t0: seq<Token>, e0: seq<ScanError>)
    requires start < |s| && IsPunctuation(s[start])
    ensures Steps(s, start, start + 1, t0, t0 + [Token(PunctuationKind(s[start]), s[start..start + 1], NilLit, 1 + Newlines(s, start + 1))], e0, e0)
  {
  }

  lemma StepOperator(s: seq<Byte>, start: nat, cur: nat, t0: seq<Token>, t: seq<Token>, e0: seq<ScanError>, ln: int)
    requires ScannedOperator(s, start, cur, t0, t, ln)
    ensures Steps(s, start, cur, t0, t, e0, e0)
  {
  }

  lemma StepSlash(s: seq<Byte>, start: nat, cur: nat, t0: seq<Token>, t: seq<Token>, e0: seq<ScanError>, e: seq<ScanError>, ln: int)
    requires ScannedSlash(s, start, cur, t0, t, e0, e, ln)
    ensures Steps(s, start, cur, t0, t, e0, e)
  {
    if start + 1 < |s| && s[start + 1] == '/' {
      assert t == t0 + [] && e == e0 + [];
    } else if start + 1 < |s| && s[start + 1] == '*' {
      assert t == t0 + [];
      if CommentEnd(s, start + 2) < |s| {
        assert e == e0 + [];
      }
    }
  }

  lemma StepBlank(s: seq<Byte>, start: nat, t0: seq<Token>, e0: seq<ScanError>)
    requires start < |s| && (IsBlank(s[start]) || s[start] == '\n')
    ensures Steps(s, start, start + 1, t0, t0, e0, e0)
  {
    assert t0 == t0 + [] && e0 == e0 + [];
  }

  lemma StepString(s: seq<Byte>, start: nat, cur: nat, t0: seq<Token>, t: seq<Token>, e0: seq<ScanError>, e: seq<ScanError>, ln: int)
    requires ScannedString(s, start, cur, t0, t, e0, e, ln)
    ensures Steps(s, start, cur, t0, t, e0, e)
  {
    if SpanWhile(s, start + 1, StringBody) == |s| {
      assert t == t0 + [];
    } else {
      assert e == e0 + [];
    }
  }

  lemma StepNumber(s: seq<Byte>, start: nat, cur: nat, t0: seq<Token>, t: seq<Token>, e0: seq<ScanError>, ln: int)
    requires ScannedNumber(s, start, cur, t0, t, ln)
    ensures Steps(s, start, cur, t0, t, e0, e0)
  {
    assert e0 == e0 + [];
  }

  lemma StepWord(s: seq<Byte>, start: nat, cur: nat, t0: seq<Token>, t: seq<Token>, e0: seq<ScanError>, ln: int)
    requires ScannedWord(s, start, cur, t0, t, ln)
    ensures Steps(s, start, cur, t0, t, e0, e0)
  {
    assert e0 == e0 + [];
  }

  lemma StepUnexpected(s: seq<Byte>, start: nat, t0: seq<Token>, e0: seq<ScanError>)
    requires start < |s| && Category(s[start]) == Unexpected
    ensures Steps(s, start, start + 1, t0, t0, e0, e0 + [ScanError(1 + Newlines(s, start + 1), "Unexpected character.")])
  {
    assert t0 == t0 + [];
  }

  // ---------------------------------------------------------------------
  // What one lexeme is

  /** Two-byte operators win over their one-byte prefixes, and the token is spelled by the text it spans. */
  lemma LexOperator(s: seq<Byte>, start: nat)
    requires start < |s| && IsOperator(s[start])
    ensures var r := Lex(s, start);
            && r.token.Some? && r.error.None? && HasFixedSpelling(r.token.value.0)
            && Spelling(r.token.value.0) == s[start..r.end]
            && (r.end == start + 2 <==> start + 1 < |s| && s[start + 1] == '=')
  {
    var r := Lex(s, start);
    if start + 1 < |s| && s[start + 1] == '=' {
      assert s[start..r.end] == [s[start], '='];
    } else {
      assert s[start..r.end] == [s[start]];
    }
  }

  /** A line comment adds nothing and runs up to, and not over, the next newline. */
  lemma LexLineComment(s: seq<Byte>, start: nat)
    requires start + 1 < |s| && s[start] == '/' && s[start + 1] == '/'
    ensures var r := Lex(s, start);
            && r.token.None? && r.error.None?
            && (r.end == |s| || s[r.end] == '\n')
            && (forall k :: start <= k < r.end ==> s[k] != '\n')
  {
    SpanWhileRun(s, start + 2, LineBody);
  }

  /**
   * A block comment adds no token: it ends just after the first star-slash
   * past its opening, or it reaches the end of the text and reports an error.
   */
  lemma LexBlockComment(s: seq<Byte>, start: nat)
    requires start + 1 < |s| && s[start] == '/' && s[start + 1] == '*'
    ensures var r := Lex(s, start);
            && r.token.None?
            && (forall k :: start + 2 <= k < r.end - 2 ==> !ClosesComment(s, k))
            && (r.error.None? <==> exists k :: start + 2 <= k && ClosesComment(s, k))
            && (r.error.None? ==> r.end >= start + 4 && s[r.end - 2] == '*' && s[r.end - 1] == '/')
            && (r.error.Some? ==> r.end == |s| && r.error.value == "Unterminated multiline comment.")
  {
    var e := CommentEnd(s, start + 2);
    CommentEndFirst(s, start + 2);
    if e < |s| {
      assert ClosesComment(s, e);
    }
  }

  /**
   * A string's literal is the text strictly between its quotes; with no
   * closing quote the scan reaches the end, reports an error and adds no token.
   */
  lemma LexString(s: seq<Byte>, start: nat)
    requires start < |s| && s[start] == '"'
    ensures var r := Lex(s, start);
            && (r.token.Some? <==> exists k :: start < k < |s| && s[k] == '"')
            && (r.token.Some? ==>
                  && r.error.None? && s[r.end - 1] == '"'
                  && r.token.value == (STRING, StrLit(s[start + 1..r.end - 1]))
                  && forall k :: start < k < r.end - 1 ==> s[k] != '"')
            && (r.token.None? ==> r.end == |s| && r.error == Some("Unterminated string."))
  {
    var e := SpanWhile(s, start + 1, StringBody);
    SpanWhileRun(s, start + 1, StringBody);
    if e < |s| {
      assert s[e] == '"';
    } else {
      assert forall k :: start < k < |s| ==> InRun(StringBody, s[k]);
    }
  }

  /**
   * A number takes every digit that follows, and a fraction only when the
   * '.' is followed by a digit.
   */
  lemma LexNumber(s: seq<Byte>, start: nat)
    requires start < |s| && IsDigit(s[start])
    ensures var r := Lex(s, start);
            var text := s[start..r.end];
            && r.error.None? && r.token.Some? && r.token.value.0 == NUMBER
            && IsNumberText(text)
            && !(r.end < |s| && IsDigit(s[r.end]))
            && ('.' !in text ==> !(r.end + 1 < |s| && s[r.end] == '.' && IsDigit(s[r.end + 1])))
  {
    NumberText(s, start);
  }

  /** The text up to `NumberEnd` is a number lexeme, and it is as long as the scanner's rule allows. */
  lemma NumberText(s: seq<Byte>, start: nat)
    requires start < |s| && IsDigit(s[start])
    ensures var e := NumberEnd(s, start + 1);
            var text := s[start..e];
            && IsNumberText(text)
            && !(e < |s| && IsDigit(s[e]))
            && ('.' !in text ==> !(e + 1 < |s| && s[e] == '.' && IsDigit(s[e + 1])))
  {
    var d := SpanWhile(s, start + 1, Digits);
    SpanWhileRun(s, start + 1, Digits);
    if d + 1 < |s| && s[d] == '.' && IsDigit(s[d + 1]) {
      var e := SpanWhile(s, d + 1, Digits);
      SpanWhileRun(s, d + 1, Digits);
      NumberEndFraction(s, start + 1, d, e);
      FractionText(s, start, d, e);
    } else {
      NumberEndInteger(s, start + 1, d);
      IntegerText(s, start, d);
    }
  }

  /** A word takes every letter, digit or '_' that follows; a reserved word gets its keyword's type. */
  lemma LexWord(s: seq<Byte>, start: nat)
    requires start < |s| && IsAlpha(s[start])
    ensures var r := Lex(s, start);
            var text := s[start..r.end];
            && r.error.None? && IsIdentifierText(text)
            && r.token == Some((if Keyword(text).Some? then Keyword(text).value else IDENTIFIER, NilLit))
            && !(r.end < |s| && IsAlphaNumeric(s[r.end]))
  {
    var r := Lex(s, start);
    var text := s[start..r.end];
    SpanWhileRun(s, start + 1, WordBytes);
    forall i | 0 <= i < |text| ensures IsAlphaNumeric(text[i]) {
      assert text[i] == s[start + i];
    }
  }

  /** Digits, a '.', and at least one more digit make a number lexeme with a fraction. */
  lemma FractionText(s: seq<Byte>, a: nat, dot: nat, b: nat)
    requires a < dot && dot + 1 < b <= |s| && s[dot] == '.'
    requires forall k :: a <= k < dot ==> IsDigit(s[k])
    requires forall k :: dot < k < b ==> IsDigit(s[k])
    ensures IsNumberText(s[a..b]) && '.' in s[a..b]
  {
    var text := s[a..b];
    assert text[..dot - a] == s[a..dot];
    assert text[dot - a + 1..] == s[dot + 1..b];
    assert text[dot - a] == '.';
  }

  /** A non-empty run of digits is a number lexeme without a fraction. */
  lemma IntegerText(s: seq<Byte>, a: nat, b: nat)
    requires a < b <= |s|
    requires forall k :: a <= k < b ==> IsDigit(s[k])
    ensures IsNumberText(s[a..b]) && '.' !in s[a..b]
  {
    assert AllDigits(s[a..b]);
  }

  /** Every token a lexeme adds is well formed: its literal and its text agree with its type. */
  lemma LexWellFormed(s: seq<Byte>, start: nat)
    requires start < |s|
    ensures forall t :: t in Emitted(s, start, Lex(s, start)) ==> WellFormed(t)
  {
    var c := s[start];
    var r := Lex(s, start);
    match Category(c)
    case Punctuation =>
      assert s[start..r.end] == [c];
    case Operator =>
      LexOperator(s, start);
    case Slash =>
      if r.token.Some? {
        assert s[start..r.end] == "/";
      }
    case Quote => LexStringWellFormed(s, start);
    case Digit => LexNumberWellFormed(s, start);
    case Letter => LexWordWellFormed(s, start);
    case Blank =>
    case Newline =>
    case Unexpected =>
  }

  lemma LexStringWellFormed(s: seq<Byte>, start: nat)
    requires start < |s| && Category(s[start]) == Quote
    ensures forall t :: t in Emitted(s, start, Lex(s, start)) ==> WellFormed(t)
  {
    var r := Lex(s, start);
    if r.token.Some? {
      SliceOfSlice(s, start, r.end, 1, r.end - start - 1);
      StringWellFormed(s[start..r.end], 1 + Newlines(s, r.end));
    }
  }

  lemma LexNumberWellFormed(s: seq<Byte>, start: nat)
    requires start < |s| && Category(s[start]) == Digit
    ensures forall t :: t in Emitted(s, start, Lex(s, start)) ==> WellFormed(t)
  {
    var r := Lex(s, start);
    LexNumber(s, start);
    NumberWellFormed(s[start..r.end], 1 + Newlines(s, r.end));
  }

  lemma LexWordWellFormed(s: seq<Byte>, start: nat)
    requires start < |s| && Category(s[start]) == Letter
    ensures forall t :: t in Emitted(s, start, Lex(s, start)) ==> WellFormed(t)
  {
    var r := Lex(s, start);
    LexWord(s, start);
    IdentifierWellFormed(s[start..r.end], 1 + Newlines(s, r.end));
  }

  // ---------------------------------------------------------------------
  // What the whole scan is

  /** Every token of a scan is well formed. */
  lemma {:induction false} TokenizeWellFormed(s: seq<Byte>, i: nat)
    requires i <= |s|
    ensures forall t :: t in Tokenize(s, i).0 ==> WellFormed(t)
    decreases |s| - i
  {
    if i < |s| {
      var r := Lex(s, i);
      LexWellFormed(s, i);
      TokenizeWellFormed(s, r.end);
    }
  }

  /** The tokens of a scan are cut from the text in order, without overlap, each lexeme from its own span. */
  lemma {:induction false} TokenizeCuts(s: seq<Byte>, i: nat)
    requires i <= |s|
    ensures var ts := Tokenize(s, i).0;
            var cs := Cuts(s, i);
            && |cs| == |ts|
            && (forall k :: 0 <= k < |cs| ==> i <= cs[k].0 < cs[k].1 <= |s| && ts[k].lexeme == s[cs[k].0..cs[k].1])
            && (forall k, m :: 0 <= k < m < |cs| ==> cs[k].1 <= cs[m].0)
    decreases |s| - i
  {
    if i < |s| {
      var r := Lex(s, i);
      TokenizeCuts(s, r.end);
    }
  }

  /** Each token of a scan carries the line its lexeme ends on, so token lines never decrease. */
  lemma {:induction false} TokenizeLines(s: seq<Byte>, i: nat)
    requires i <= |s|
    ensures var ts := Tokenize(s, i).0;
            var cs := Cuts(s, i);
            && |cs| == |ts|
            && (forall k :: 0 <= k < |ts| ==> cs[k].1 <= |s| && ts[k].line == 1 + Newlines(s, cs[k].1))
            && (forall k :: 0 <= k < |ts| ==> 1 + Newlines(s, i) <= ts[k].line <= 1 + Newlines(s, |s|))
            && (forall k, m :: 0 <= k < m < |ts| ==> ts[k].line <= ts[m].line)
    decreases |s| - i
  {
    TokenizeCuts(s, i);
    if i < |s| {
      var r := Lex(s, i);
      TokenizeLines(s, r.end);
      NewlinesMonotone(s, i, r.end);
      NewlinesMonotone(s, r.end, |s|);
    }
  }

  // ---------------------------------------------------------------------
  // The scanner

  class Scanner {
    const source: seq<Byte>
    var tokens: seq<Token>
    var start: nat
    var current: nat
    var line: int
    /** The errors reported so far, in order. */
    var errors: seq<ScanError>

    /** `line` is one more than the number of newlines consumed so far. */
    ghost predicate LineCounted()
      reads this`current, this`line
    {
      current <= |source| && line == 1 + Newlines(source, current)
    }

    constructor (source: seq<Byte>)
      ensures this.source == source && LineCounted()
      ensures tokens == [] && errors == [] && start == 0 && current == 0 && line == 1
    {
      this.source := source;
      tokens, errors := [], [];
      start, current, line := 0, 0, 1;
    }

    /** Scans the rest of the source and appends the end-of-input token, on the last line. */
    method ScanTokens() returns (result: seq<Token>)
      requires LineCounted()
      modifies this`tokens, this`start, this`current, this`line, this`errors
      ensures result == tokens && current == |source|
      ensures tokens == old(tokens) + Tokenize(source, old(current)).0 + [Token(EOF, "", NilLit, 1 + Newlines(source, |source|))]
      ensures errors == old(errors) + Tokenize(source, old(current)).1
    {
      ghost var all := Tokenize(source, current);
      while !IsAtEnd()
        invariant LineCounted()
        invariant tokens + Tokenize(source, current).0 == old(tokens) + all.0
        invariant errors + Tokenize(source, current).1 == old(errors) + all.1
        decreases |source| - current
      {
        start := current;
        ghost var t0, e0 := tokens, errors;
        ScanToken();
        StepsTokenize(source, start, current, t0, tokens, e0, errors);
      }
      tokens := tokens + [Token(EOF, "", NilLit, line)];
      result := tokens;
    }

    /**
     * Scans one lexeme: the cursor moves past the lexeme `Lex` finds at
     * `start`, and its token and its error, if any, are appended.
     */
    method ScanToken()
      requires LineCounted() && start == current < |source|
      modifies this`tokens, this`current, this`line, this`errors
      ensures LineCounted() && Steps(source, start, current, old(tokens), tokens, old(errors), errors)
    {
      ghost var r := Lex(source, start);
      var c := Advance();
      NewlinesStep(source, start);
      match Category(c)
      case Punctuation =>
        AddToken(PunctuationKind(c), NilLit);
        StepPunctuation(source, start, old(tokens), errors);
      case Operator =>
        ScanOperator(c);
        StepOperator(source, start, current, old(tokens), tokens, errors, line);
      case Slash =>
        ScanSlash();
        StepSlash(source, start, current, old(tokens), tokens, old(errors), errors, line);
      case Blank =>
        StepBlank(source, start, tokens, errors);
      case Newline =>
        line := line + 1;
        StepBlank(source, start, tokens, errors);
      case Quote =>
        ScanString();
        StepString(source, start, current, old(tokens), tokens, old(errors), errors, line);
      case Digit =>
        ScanNumber();
        StepNumber(source, start, current, old(tokens), tokens, errors, line);
      case Letter =>
        ScanIdentifier();
        StepWord(source, start, current, old(tokens), tokens, errors, line);
      case Unexpected =>
        errors := errors + [ScanError(line, "Unexpected character.")];
        StepUnexpected(source, start, tokens, old(errors));
    }

    /** The operator cases of `scanToken`: `c` is consumed; a following '=' joins it. */
    method ScanOperator(c: Byte)
      requires LineCounted() && current == start + 1 <= |source| && c == source[start] && IsOperator(c)
      modifies this`tokens, this`current
      ensures LineCounted() && ScannedOperator(source, start, current, old(tokens), tokens, line)
    {
      var two := Match('=');
      if two {
        NewlinesStep(source, start + 1);
      }
      AddToken(OperatorKind(c, two), NilLit);
    }

    /** The '/' case of `scanToken`: a line comment, a block comment, or the SLASH operator. */
    method ScanSlash()
      requires LineCounted() && current == start + 1 <= |source| && source[start] == '/'
      modifies this`tokens, this`current, this`line, this`errors
      ensures LineCounted() && ScannedSlash(source, start, current, old(tokens), tokens, old(errors), errors, line)
    {
      var comment := Match('/');
      if comment {
        NewlinesStep(source, start + 1);
        ghost var e := SpanWhile(source, current, LineBody);
        while Peek() != '\n' && !IsAtEnd()
          invariant LineCounted() && start + 2 <= current <= e && SpanWhile(source, current, LineBody) == e
          invariant tokens == old(tokens) && errors == old(errors)
          decreases |source| - current
        {
          NewlinesStep(source, current);
          var c := Advance();
        }
      } else {
        var block := Match('*');
        if block {
          NewlinesStep(source, start + 1);
          MultiComment();
        } else {
          AddToken(SLASH, NilLit);
        }
      }
    }

    /** Scans the rest of an identifier or keyword whose first byte is consumed. */
    method ScanIdentifier()
      requires LineCounted() && current == start + 1 <= |source| && IsAlpha(source[start])
      modifies this`tokens, this`current
      ensures LineCounted() && ScannedWord(source, start, current, old(tokens), tokens, line)
    {
      ghost var e := SpanWhile(source, current, WordBytes);
      while IsAlphaNumeric(Peek())
        invariant LineCounted() && start < current <= e && SpanWhile(source, current, WordBytes) == e
        invariant tokens == old(tokens)
        decreases |source| - current
      {
        NewlinesStep(source, current);
        var c := Advance();
      }
      var text := source[start..current];
      match Keyword(text)
      case Some(k) =>
        AddToken(k, NilLit);
      case None =>
        AddToken(IDENTIFIER, NilLit);
    }

    /** Scans the rest of a number whose first digit is consumed. */
    method ScanNumber()
      requires LineCounted() && current == start + 1 <= |source| && IsDigit(source[start])
      modifies this`tokens, this`current
      ensures LineCounted() && ScannedNumber(source, start, current, old(tokens), tokens, line)
    {
      Skip(Digits);
      ghost var d := current;
      if Peek() == '.' && IsDigit(PeekNext()) {
        NewlinesStep(source, current);
        var c := Advance();
        Skip(Digits);
        NumberEndFraction(source, start + 1, d, current);
      } else {
        NumberEndInteger(source, start + 1, d);
      }
      AddToken(NUMBER, NumLit(NumberValue(source[start..current])));
    }

    /** Consumes bytes while they belong to `run` (never a newline). */
    method Skip(run: Run)
      requires LineCounted() && run != StringBody
      modifies this`current
      ensures LineCounted() && current == SpanWhile(source, old(current), run)
    {
      ghost var e := SpanWhile(source, current, run);
      while !IsAtEnd() && InRun(run, Peek())
        invariant LineCounted() && old(current) <= current <= e && SpanWhile(source, current, run) == e
        decreases |source| - current
      {
        NewlinesStep(source, current);
        var c := Advance();
      }
    }

    /** Scans the rest of a string literal whose opening quote is consumed. */
    method ScanString()
      requires LineCounted() && current == start + 1 <= |source| && source[start] == '"'
      modifies this`tokens, this`current, this`line, this`errors
      ensures LineCounted() && ScannedString(source, start, current, old(tokens), tokens, old(errors), errors, line)
    {
      ghost var e := SpanWhile(source, current, StringBody);
      while Peek() != '"' && !IsAtEnd()
        invariant LineCounted() && start < current <= e && SpanWhile(source, current, StringBody) == e
        invariant tokens == old(tokens) && errors == old(errors)
        decreases |source| - current
      {
        if Peek() == '\n' {
          line := line + 1;
        }
        NewlinesStep(source, current);
        var c := Advance();
      }
      if IsAtEnd() {
        errors := errors + [ScanError(line, "Unterminated string.")];
        return;
      }
      NewlinesStep(source, current);
      var c := Advance();
      AddToken(STRING, StrLit(source[start + 1..current - 1]));
    }

    // Skips a block comment whose opening slash-star is consumed, counting its newlines.
    method MultiComment()
      requires LineCounted() && current == start + 2 <= |source|
      modifies this`current, this`line, this`errors
      ensures LineCounted()
      ensures var e := CommentEnd(source, start + 2);
              && current == (if e == |source| then e else e + 2)
              && errors == old(errors) + (if e == |source| then [ScanError(line, "Unterminated multiline comment.")] else [])
    {
      ghost var e := CommentEnd(source, current);
      while !(Peek() == '*' && PeekNext() == '/') && !IsAtEnd()
        invariant LineCounted() && start + 2 <= current <= e && CommentEnd(source, current) == e
        invariant errors == old(errors)
        decreases |source| - current
      {
        if Peek() == '\n' {
          line := line + 1;
        }
        NewlinesStep(source, current);
        var c := Advance();
      }
      if IsAtEnd() {
        errors := errors + [ScanError(line, "Unterminated multiline comment.")];
        return;
      }
      NewlinesStep(source, current);
      var c := Advance();
      NewlinesStep(source, current);
      c := Advance();
      assert errors == old(errors) + [];
    }

    /** Consumes the next byte when it is `expected`; otherwise changes nothing. */
    method Match(expected: Byte) returns (matched: bool)
      modifies this`current
      ensures matched <==> old(current) < |source| && source[old(current)] == expected
      ensures current == if matched then old(current) + 1 else old(current)
    {
      if IsAtEnd() {
        return false;
      }
      if source[current] != expected {
        return false;
      }
      current := current + 1;
      return true;
    }

    /** The next byte, or '\0' at the end of the source. */
    function Peek(): (c: Byte)
      reads this`current
      ensures current < |source| ==> c == source[current]
      ensures current >= |source| ==> c == '\0'
    {
      if IsAtEnd() then '\0' else source[current]
    }

    /** The byte after the next one, or '\0' past the end of the source. */
    function PeekNext(): (c: Byte)
      reads this`current
      ensures current + 1 < |source| ==> c == source[current + 1]
      ensures current + 1 >= |source| ==> c == '\0'
    {
      if current + 1 >= |source| then '\0' else source[current + 1]
    }

    predicate IsAtEnd()
      reads this`current
    {
      current >= |source|
    }

    /** Consumes and returns the next byte; the source is indexed without a check, so it must exist. */
    method Advance() returns (c: Byte)
      requires current < |source|
      modifies this`current
      ensures current == old(current) + 1
      ensures c == source[old(current)] && c == old(Peek())
    {
      c := source[current];
      current := current + 1;
    }

    /** Appends a token whose lexeme is the text from `start` to `current`, on the current line. */
    method AddToken(kind: TokenType, literal: LiteralValue)
      requires start <= current <= |source|
      modifies this`tokens
      ensures tokens == old(tokens) + [Token(kind, source[start..current], literal, line)]
    {
      tokens := tokens + [Token(kind, source[start..current], literal, line)];
    }
  }

  /**
   * A fresh scanner run over `source` yields the tokens and errors of
   * `Tokenize` and then one EOF token, on the last line (so, by
   * `TokenizeWellFormed`, every token before the EOF is well formed).
   */
  method Scan(source: seq<Byte>) returns (tokens: seq<Token>, errors: seq<ScanError>)
    ensures tokens == Tokenize(source, 0).0 + [Token(EOF, "", NilLit, 1 + Newlines(source, |source|))]
    ensures errors == Tokenize(source, 0).1
  {
    var s := new Scanner(source);
    tokens := s.ScanTokens();
    errors := s.errors;
  }
}
