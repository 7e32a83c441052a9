/** Token kinds, tokens and the reserved-word table of the scanner. */
module Tokens {
  import opened Wrappers

  /**
   * The kinds of token. The payloads of IDENTIFIER and STRING are the text the scanner
   * found; the payload of NUMBER is kept as its lexeme (its floating-point value is not
   * modelled).
   */
  datatype TokenType =
    // Single-character tokens.
    | LEFT_PAREN | RIGHT_PAREN | LEFT_BRACE | RIGHT_BRACE
    | COMMA | DOT | MINUS | PLUS | SEMICOLON | SLASH | STAR
    // One or two character tokens.
    | BANG | BANG_EQUAL | EQUAL | EQUAL_EQUAL
    | GREATER | GREATER_EQUAL | LESS | LESS_EQUAL
    // Literals.
    | IDENTIFIER(name: string) | STRING(text: string) | NUMBER(literal: string)
    // Keywords.
    | AND | CLASS | ELSE | FALSE | FUN | FOR | IF | NIL | OR
    | PRINT | RETURN | SUPER | THIS | TRUE | VAR | WHILE
    | EOF

  datatype Token = Token(kind: TokenType, lexeme: string, line: int)

  /** An ASCII decimal digit (the scanner's `isASCII && isNumber`). */
  predicate IsDigit(c: char) {
    '0' <= c <= '9'
  }

  /** A token kind with its payload, if any, erased. */
  function Erase(t: TokenType): TokenType {
    match t
    case IDENTIFIER(_) => IDENTIFIER("")
    case STRING(_) => STRING("")
    case NUMBER(_) => NUMBER("")
    case _ => t
  }

  /** Kind comparison that ignores the payload of IDENTIFIER, STRING and NUMBER. */
  predicate SameType(a: TokenType, b: TokenType) {
    if a.IDENTIFIER? then b.IDENTIFIER?
    else if a.STRING? then b.STRING?
    else if a.NUMBER? then b.NUMBER?
    else a == b
  }

  /** SameType is equality of kinds once payloads are erased. */
  lemma SameTypeIsErasedEquality(a: TokenType, b: TokenType)
    ensures SameType(a, b) <==> Erase(a) == Erase(b)
  {
  }

  /** SameType is an equivalence relation. */
  lemma SameTypeIsEquivalence(a: TokenType, b: TokenType, c: TokenType)
    ensures SameType(a, a)
    ensures SameType(a, b) ==> SameType(b, a)
    ensures SameType(a, b) && SameType(b, c) ==> SameType(a, c)
  {
    SameTypeIsErasedEquality(a, b);
    SameTypeIsErasedEquality(b, c);
    SameTypeIsErasedEquality(a, c);
    SameTypeIsErasedEquality(b, a);
    SameTypeIsErasedEquality(a, a);
  }

  /** The reserved words and the kind each one scans to. */
  const Keywords: map<string, TokenType> := map[
    "and" := AND, "class" := CLASS, "else" := ELSE, "false" := FALSE,
    "for" := FOR, "fun" := FUN, "if" := IF, "nil" := NIL,
    "or" := OR, "print" := PRINT, "return" := RETURN, "super" := SUPER,
    "this" := THIS, "true" := TRUE, "var" := VAR, "while" := WHILE
  ]

  predicate IsKeywordKind(t: TokenType) {
    t.AND? || t.CLASS? || t.ELSE? || t.FALSE? || t.FOR? || t.FUN? || t.IF? || t.NIL? ||
    t.OR? || t.PRINT? || t.RETURN? || t.SUPER? || t.THIS? || t.TRUE? || t.VAR? || t.WHILE?
  }

  /** The spelling of a keyword kind: the inverse of the table. */
  function KeywordText(t: TokenType): string
    requires IsKeywordKind(t)
  {
    match t
    case AND => "and" case CLASS => "class" case ELSE => "else" case FALSE => "false"
    case FOR => "for" case FUN => "fun" case IF => "if" case NIL => "nil"
    case OR => "or" case PRINT => "print" case RETURN => "return" case SUPER => "super"
    case THIS => "this" case TRUE => "true" case VAR => "var" case WHILE => "while"
  }

  /**
   * The kind an identifier-shaped text scans to: its keyword if the text is in the
   * table, otherwise IDENTIFIER carrying exactly that text.
   */
  function IdentifierKind(text: string): (t: TokenType)
    ensures t.IDENTIFIER? <==> text !in Keywords
    ensures t.IDENTIFIER? ==> t.name == text
    ensures !t.IDENTIFIER? ==> IsKeywordKind(t) && KeywordText(t) == text
  {
    if text in Keywords then Keywords[text] else IDENTIFIER(text)
  }

  /** The table holds exactly the sixteen keyword kinds, each under its own spelling. */
  lemma KeywordTableRoundTrip(t: TokenType)
    ensures IsKeywordKind(t) ==> KeywordText(t) in Keywords && Keywords[KeywordText(t)] == t
  {
  }
}
