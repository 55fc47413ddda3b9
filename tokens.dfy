/**
 * Tokens as the scanner produces them: a kind, the source text it was
 * scanned from (its lexeme), an optional literal value and a line number.
 */
module Tokens {
  import opened Wrappers

  /** The scanner works on the bytes of the source: a source character is a char below 256. */
  type Byte = c: char | c as int < 256 witness '\0'

  /** The lexical categories of Lox. The names are the language's own token names. */
  datatype TokenType =
    // single-character tokens
    | LEFT_PAREN | RIGHT_PAREN | LEFT_BRACE | RIGHT_BRACE
    | COMMA | DOT | MINUS | PLUS | SEMICOLON | SLASH | STAR
    // one- or two-character tokens
    | BANG | BANG_EQUAL | EQUAL | EQUAL_EQUAL
    | GREATER | GREATER_EQUAL | LESS | LESS_EQUAL
    // literals
    | IDENTIFIER | STRING | NUMBER
    // keywords
    | AND | CLASS | ELSE | FALSE | FUN | FOR | IF | NIL | OR
    | PRINT | RETURN | SUPER | THIS | TRUE | VAR | WHILE
    | EOF

  /**
   * A literal value: what a token carries (nothing, a number or a string) and
   * what a `Literal` expression holds (also a boolean). Numbers are reals:
   * the rounding of the host's 64-bit floats is not modelled.
   */
  datatype LiteralValue = NilLit | BoolLit(b: bool) | NumLit(n: real) | StrLit(s: string)

  datatype Token = Token(kind: TokenType, lexeme: string, literal: LiteralValue, line: int)

  /**
   * The scanner's table of reserved words: the token type a word scans to,
   * or None when the word is not reserved.
   */
  function Keyword(text: string): Option<TokenType> {
    if text == "and" then Some(AND) else if text == "class" then Some(CLASS)
    else if text == "else" then Some(ELSE) else if text == "false" then Some(FALSE)
    else if text == "for" then Some(FOR) else if text == "fun" then Some(FUN)
    else if text == "if" then Some(IF) else if text == "nil" then Some(NIL)
    else if text == "or" then Some(OR) else if text == "print" then Some(PRINT)
    else if text == "return" then Some(RETURN) else if text == "super" then Some(SUPER)
    else if text == "this" then Some(THIS) else if text == "true" then Some(TRUE)
    else if text == "var" then Some(VAR) else if text == "while" then Some(WHILE)
    else None
  }

  predicate IsKeyword(k: TokenType) {
    k in {AND, CLASS, ELSE, FALSE, FUN, FOR, IF, NIL, OR, PRINT, RETURN, SUPER, THIS, TRUE, VAR, WHILE}
  }

  /** Token types whose lexeme is always the same text. */
  predicate HasFixedSpelling(k: TokenType) {
    !(k.IDENTIFIER? || k.STRING? || k.NUMBER? || k.EOF?)
  }

  /** The one text a fixed-spelling token type is scanned from. */
  function Spelling(k: TokenType): string
    requires HasFixedSpelling(k)
  {
    match k
    case LEFT_PAREN => "(" case RIGHT_PAREN => ")"
    case LEFT_BRACE => "{" case RIGHT_BRACE => "}"
    case COMMA => "," case DOT => "." case MINUS => "-" case PLUS => "+"
    case SEMICOLON => ";" case SLASH => "/" case STAR => "*"
    case BANG => "!" case BANG_EQUAL => "!="
    case EQUAL => "=" case EQUAL_EQUAL => "=="
    case GREATER => ">" case GREATER_EQUAL => ">="
    case LESS => "<" case LESS_EQUAL => "<="
    case AND => "and" case CLASS => "class" case ELSE => "else" case FALSE => "false"
    case FUN => "fun" case FOR => "for" case IF => "if" case NIL => "nil"
    case OR => "or" case PRINT => "print" case RETURN => "return" case SUPER => "super"
    case THIS => "this" case TRUE => "true" case VAR => "var" case WHILE => "while"
  }

  /** The keyword table and the keyword spellings agree, in both directions. */
  lemma KeywordTable(w: string, k: TokenType)
    ensures Keyword(w) == Some(k) <==> IsKeyword(k) && Spelling(k) == w
  {
    if Keyword(w).Some? {
      KeywordReserved(w);
    }
    if IsKeyword(k) {
      KeywordSpelled(k);
    }
  }

  /** Every word of the table is the spelling of a reserved word's token type. */
  lemma KeywordReserved(w: string)
    requires Keyword(w).Some?
    ensures IsKeyword(Keyword(w).value) && Spelling(Keyword(w).value) == w
  {
    match Keyword(w).value
    case AND => case CLASS => case ELSE => case FALSE => case FUN => case FOR =>
    case IF => case NIL => case OR => case PRINT => case RETURN => case SUPER =>
    case THIS => case TRUE => case VAR => case WHILE =>
    case _ =>
  }

  /** The spelling of every reserved word's token type is in the table. */
  lemma KeywordSpelled(k: TokenType)
    requires IsKeyword(k)
    ensures Keyword(Spelling(k)) == Some(k)
  {
    match k
    case AND => case CLASS => case ELSE => case FALSE => case FUN => case FOR =>
    case IF => case NIL => case OR => case PRINT => case RETURN => case SUPER =>
    case THIS => case TRUE => case VAR => case WHILE =>
  }

  /** The type an identifier-shaped lexeme scans to: its keyword's if it is reserved, else IDENTIFIER. */
  function IdentifierKind(text: string): TokenType {
    match Keyword(text)
    case Some(k) => k
    case None => IDENTIFIER
  }

  lemma IdentifierWellFormed(text: string, line: int)
    requires IsIdentifierText(text)
    ensures WellFormed(Token(IdentifierKind(text), text, NilLit, line))
  {
    if Keyword(text).Some? {
      KeywordTable(text, Keyword(text).value);
    }
  }

  lemma NumberWellFormed(text: string, line: int)
    requires IsNumberText(text)
    ensures WellFormed(Token(NUMBER, text, NumLit(NumberValue(text)), line))
  {
  }

  lemma StringWellFormed(text: string, line: int)
    requires |text| >= 2 && text[0] == '"' && text[|text| - 1] == '"'
    ensures WellFormed(Token(STRING, text, StrLit(text[1..|text| - 1]), line))
  {
  }

  lemma FixedWellFormed(k: TokenType, line: int)
    requires HasFixedSpelling(k)
    ensures WellFormed(Token(k, Spelling(k), NilLit, line))
  {
  }

  predicate IsDigit(c: char) {
    '0' <= c <= '9'
  }

  predicate IsAlpha(c: char) {
    ('a' <= c <= 'z') || ('A' <= c <= 'Z') || c == '_'
  }

  predicate IsAlphaNumeric(c: char) {
    IsAlpha(c) || IsDigit(c)
  }

  predicate AllDigits(s: string) {
    forall i :: 0 <= i < |s| ==> IsDigit(s[i])
  }

  /** The shape of a number lexeme: digits, optionally a '.' and at least one more digit. */
  predicate IsNumberText(s: string) {
    || (|s| > 0 && AllDigits(s))
    || exists k :: 0 < k < |s| - 1 && s[k] == '.' && AllDigits(s[..k]) && AllDigits(s[k + 1..])
  }

  /** The shape of an identifier lexeme: a letter or '_' and then letters, digits or '_'. */
  predicate IsIdentifierText(s: string) {
    |s| > 0 && IsAlpha(s[0]) && forall i :: 0 <= i < |s| ==> IsAlphaNumeric(s[i])
  }

  /** The value of a decimal digit; zero for any other character. */
  function DigitValue(c: char): nat {
    if IsDigit(c) then c as int - '0' as int else 0
  }

  /** The first `n` characters of `s` read as a decimal integer. */
  function IntegerValue(s: string, n: nat): nat
    requires n <= |s|
  {
    if n == 0 then 0 else IntegerValue(s, n - 1) * 10 + DigitValue(s[n - 1])
  }

  /** The characters of `s` from `i` on read as the digits after a decimal point. */
  function FractionValue(s: string, i: nat): real
    decreases |s| - i
  {
    if i >= |s| then 0.0 else (DigitValue(s[i]) as real + FractionValue(s, i + 1)) / 10.0
  }

  /** Where the first '.' of `s` at or after `i` is, or the length of `s`. */
  function DotIndex(s: string, i: nat): (p: nat)
    requires i <= |s|
    ensures i <= p <= |s|
    decreases |s| - i
  {
    if i == |s| || s[i] == '.' then i else DotIndex(s, i + 1)
  }

  /**
   * The value of a number lexeme, as the exact decimal it spells. This is
   * the host's float parsing without its rounding to 64 bits.
   */
  function NumberValue(s: string): real {
    var p := DotIndex(s, 0);
    IntegerValue(s, p) as real + FractionValue(s, p + 1)
  }

  /**
   * What the scanner promises of every token before the final EOF: its
   * literal and its lexeme agree with its kind.
   */
  predicate WellFormed(t: Token) {
    match t.kind
    case EOF => false
    case STRING =>
      && |t.lexeme| >= 2 && t.lexeme[0] == '"' && t.lexeme[|t.lexeme| - 1] == '"'
      && t.literal == StrLit(t.lexeme[1..|t.lexeme| - 1])
    case NUMBER =>
      IsNumberText(t.lexeme) && t.literal == NumLit(NumberValue(t.lexeme))
    case IDENTIFIER =>
      IsIdentifierText(t.lexeme) && Keyword(t.lexeme).None? && t.literal == NilLit
    case _ =>
      t.lexeme == Spelling(t.kind) && t.literal == NilLit
  }
}
