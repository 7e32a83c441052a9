/**
 * What the recursive-descent parser computes, as functions of the token list and the
 * cursor position. Each rule returns the node it built and the position after it, or
 * the ParserError it throws.
 */
module ParseSpec {
  import opened Wrappers
  import opened Tokens
  import opened Errors
  import opened Ast

  /** The parser is only ever given a token list that ends with EOF. */
  predicate WellFormed(toks: seq<Token>) {
    |toks| > 0 && toks[|toks| - 1].kind == EOF
  }

  datatype Parsed<+T> = Parsed(value: T, next: nat)

  predicate AtEnd(toks: seq<Token>, pos: nat)
    requires pos < |toks|
  {
    toks[pos].kind == EOF
  }

  /** `check(type:)`: false at EOF, otherwise kind comparison ignoring payloads. */
  predicate CheckAt(toks: seq<Token>, pos: nat, t: TokenType)
    requires pos < |toks|
  {
    !AtEnd(toks, pos) && SameType(toks[pos].kind, t)
  }

  /** Whether `match(oneOf:)` finds one of the options at pos. */
  predicate AnyCheck(toks: seq<Token>, pos: nat, options: seq<TokenType>)
    requires pos < |toks|
  {
    |options| > 0 && (CheckAt(toks, pos, options[0]) || AnyCheck(toks, pos, options[1..]))
  }

  /** A check that succeeds is never at the final EOF, so the position after it is in range. */
  lemma CheckedIsNotLast(toks: seq<Token>, pos: nat, options: seq<TokenType>)
    requires WellFormed(toks) && pos < |toks| && AnyCheck(toks, pos, options)
    ensures pos + 1 < |toks|
  {
  }

  /** `consume(type:message:)` of a terminator after a node that ends before pos. */
  function Terminated<T>(toks: seq<Token>, pos: nat, t: TokenType, node: T, message: string): (r: Result<Parsed<T>, LoxError>)
    requires WellFormed(toks) && pos < |toks|
    ensures r.Success? ==> r.value.next == pos + 1 < |toks|
  {
    if CheckAt(toks, pos, t) then Success(Parsed(node, pos + 1))
    else Failure(ParserError(toks[pos], message))
  }

  // ---------------------------------------------------------------- expressions

  /** The four left-associative binary levels, tightest first. */
  datatype Level = FactorLevel | TermLevel | ComparisonLevel | EqualityLevel

  function Rank(l: Level): nat {
    match l
    case FactorLevel => 0
    case TermLevel => 1
    case ComparisonLevel => 2
    case EqualityLevel => 3
  }

  function Operators(l: Level): seq<TokenType> {
    match l
    case FactorLevel => [SLASH, STAR]
    case TermLevel => [PLUS, MINUS]
    case ComparisonLevel => [GREATER, GREATER_EQUAL, LESS, LESS_EQUAL]
    case EqualityLevel => [BANG_EQUAL, EQUAL_EQUAL]
  }

  /** The level just tighter than l; its operands. */
  function Below(l: Level): Level
    requires l != FactorLevel
  {
    match l
    case TermLevel => FactorLevel
    case ComparisonLevel => TermLevel
    case EqualityLevel => ComparisonLevel
  }

  const LiteralKinds: seq<TokenType> := [NUMBER(""), STRING(""), TRUE, FALSE, NIL]
  const UnaryOperators: seq<TokenType> := [BANG, MINUS]

  /** The rest of `"(" expression ")"`, from just after the `(`. */
  function ParseGrouping(toks: seq<Token>, pos: nat): (r: Result<Parsed<Expr>, LoxError>)
    requires WellFormed(toks) && pos < |toks|
    ensures r.Success? ==> pos < r.value.next < |toks|
    decreases |toks| - pos, 16
  {
    match ParseExpression(toks, pos)
    case Failure(e) => Failure(e)
    case Success(p) =>
      Terminated(toks, p.next, RIGHT_PAREN, Grouping(p.value), "Expected ')' after expression")
  }

  /** primary → NUMBER | STRING | "true" | "false" | "nil" | IDENTIFIER | "(" expression ")" */
  function ParsePrimary(toks: seq<Token>, pos: nat): (r: Result<Parsed<Expr>, LoxError>)
    requires WellFormed(toks) && pos < |toks|
    ensures r.Success? ==> pos < r.value.next < |toks|
    decreases |toks| - pos, 1
  {
    if AnyCheck(toks, pos, LiteralKinds) then
      CheckedIsNotLast(toks, pos, LiteralKinds);
      Success(Parsed(Literal(toks[pos]), pos + 1))
    else if AnyCheck(toks, pos, [IDENTIFIER("_")]) then
      CheckedIsNotLast(toks, pos, [IDENTIFIER("_")]);
      Success(Parsed(Variable(toks[pos]), pos + 1))
    else if AnyCheck(toks, pos, [LEFT_PAREN]) then
      CheckedIsNotLast(toks, pos, [LEFT_PAREN]);
      ParseGrouping(toks, pos + 1)
    else
      Failure(ParserError(toks[pos], "Expected literal or open parentheses"))
  }

  /** unary → ( "!" | "-" ) unary | primary */
  function ParseUnary(toks: seq<Token>, pos: nat): (r: Result<Parsed<Expr>, LoxError>)
    requires WellFormed(toks) && pos < |toks|
    ensures r.Success? ==> pos < r.value.next < |toks|
    decreases |toks| - pos, 2
  {
    if AnyCheck(toks, pos, UnaryOperators) then
      CheckedIsNotLast(toks, pos, UnaryOperators);
      match ParseUnary(toks, pos + 1)
      case Failure(e) => Failure(e)
      case Success(p) => Success(Parsed(Unary(toks[pos], p.value), p.next))
    else
      ParsePrimary(toks, pos)
  }

  /** The operand rule of level l, started at pos. */
  function ParseOperand(toks: seq<Token>, pos: nat, l: Level): (r: Result<Parsed<Expr>, LoxError>)
    requires WellFormed(toks) && pos < |toks|
    ensures r.Success? ==> pos < r.value.next < |toks|
    decreases |toks| - pos, 3 * Rank(l) + 3
  {
    if l == FactorLevel then ParseUnary(toks, pos) else ParseLevel(toks, pos, Below(l))
  }

  /** `while match(operators) { right = operand(); expr = Binary(expr, op, right) }` */
  function LevelLoop(toks: seq<Token>, pos: nat, l: Level, left: Expr): (r: Result<Parsed<Expr>, LoxError>)
    requires WellFormed(toks) && pos < |toks|
    ensures r.Success? ==> pos <= r.value.next < |toks|
    decreases |toks| - pos, 3 * Rank(l) + 4
  {
    if AnyCheck(toks, pos, Operators(l)) then
      CheckedIsNotLast(toks, pos, Operators(l));
      match ParseOperand(toks, pos + 1, l)
      case Failure(e) => Failure(e)
      case Success(p) => LevelLoop(toks, p.next, l, Binary(left, toks[pos], p.value))
    else
      Success(Parsed(left, pos))
  }

  /** factor, term, comparision and equality: an operand, then the loop. */
  function ParseLevel(toks: seq<Token>, pos: nat, l: Level): (r: Result<Parsed<Expr>, LoxError>)
    requires WellFormed(toks) && pos < |toks|
    ensures r.Success? ==> pos < r.value.next < |toks|
    decreases |toks| - pos, 3 * Rank(l) + 5
  {
    match ParseOperand(toks, pos, l)
    case Failure(e) => Failure(e)
    case Success(p) => LevelLoop(toks, p.next, l, p.value)
  }

  function ParseExpression(toks: seq<Token>, pos: nat): (r: Result<Parsed<Expr>, LoxError>)
    requires WellFormed(toks) && pos < |toks|
    ensures r.Success? ==> pos < r.value.next < |toks|
    decreases |toks| - pos, 15
  {
    ParseLevel(toks, pos, EqualityLevel)
  }

  // ---------------------------------------------------------------- statements

  function ParsePrintStmt(toks: seq<Token>, pos: nat): (r: Result<Parsed<Stmt>, LoxError>)
    requires WellFormed(toks) && pos < |toks|
    ensures r.Success? ==> pos < r.value.next < |toks|
  {
    match ParseExpression(toks, pos)
    case Failure(e) => Failure(e)
    case Success(p) => Terminated(toks, p.next, SEMICOLON, Print(p.value), "Expect ';' after value")
  }

  function ParseExpressionStmt(toks: seq<Token>, pos: nat): (r: Result<Parsed<Stmt>, LoxError>)
    requires WellFormed(toks) && pos < |toks|
    ensures r.Success? ==> pos < r.value.next < |toks|
  {
    match ParseExpression(toks, pos)
    case Failure(e) => Failure(e)
    case Success(p) => Terminated(toks, p.next, SEMICOLON, Expression(p.value), "Expect ';' after expression")
  }

  /** The optional `"=" expression` of a declaration. */
  function ParseInitializer(toks: seq<Token>, pos: nat): (r: Result<Parsed<Option<Expr>>, LoxError>)
    requires WellFormed(toks) && pos < |toks|
    ensures r.Success? ==> pos <= r.value.next < |toks|
  {
    if AnyCheck(toks, pos, [EQUAL]) then
      CheckedIsNotLast(toks, pos, [EQUAL]);
      match ParseExpression(toks, pos + 1)
      case Failure(e) => Failure(e)
      case Success(p) => Success(Parsed(Some(p.value), p.next))
    else
      Success(Parsed(None, pos))
  }

  /** `IDENTIFIER [ "=" expression ] ";"`, with no `var` keyword in front. */
  function ParseVarDeclaration(toks: seq<Token>, pos: nat): (r: Result<Parsed<Stmt>, LoxError>)
    requires WellFormed(toks) && pos < |toks|
    ensures r.Success? ==> pos < r.value.next < |toks|
  {
    if !CheckAt(toks, pos, IDENTIFIER("_")) then
      Failure(ParserError(toks[pos], "Expected Identifier"))
    else
      match ParseInitializer(toks, pos + 1)
      case Failure(e) => Failure(e)
      case Success(p) =>
        Terminated(toks, p.next, SEMICOLON, Var(toks[pos], p.value), "Expect ';' after variable declaration.")
  }

  /** A declaration whose name is present: its initializer, then the `;`. */
  lemma NamedVarDeclaration(toks: seq<Token>, pos: nat)
    requires WellFormed(toks) && pos < |toks| && CheckAt(toks, pos, IDENTIFIER("_"))
    ensures pos + 1 < |toks|
    ensures var init := ParseInitializer(toks, pos + 1);
      ParseVarDeclaration(toks, pos) ==
        if init.Failure? then Failure(init.error)
        else Terminated(toks, init.value.next, SEMICOLON, Var(toks[pos], init.value.value),
                        "Expect ';' after variable declaration.")
  {
  }

  /** The items of a block after its `{`, up to and including the closing `}`. */
  function BlockItems(toks: seq<Token>, pos: nat, acc: seq<Stmt>): (r: Result<Parsed<seq<Stmt>>, LoxError>)
    requires WellFormed(toks) && pos < |toks|
    ensures r.Success? ==> pos < r.value.next < |toks|
    decreases |toks| - pos
  {
    if !CheckAt(toks, pos, RIGHT_BRACE) && !AtEnd(toks, pos) then
      match ParseVarDeclaration(toks, pos)
      case Failure(e) => Failure(e)
      case Success(p) => BlockItems(toks, p.next, acc + [p.value])
    else
      Terminated(toks, pos, RIGHT_BRACE, acc, "Expected closing brace '}' after block")
  }

  function ParseStatement(toks: seq<Token>, pos: nat): (r: Result<Parsed<Stmt>, LoxError>)
    requires WellFormed(toks) && pos < |toks|
    ensures r.Success? ==> pos < r.value.next < |toks|
  {
    if AnyCheck(toks, pos, [PRINT]) then
      CheckedIsNotLast(toks, pos, [PRINT]);
      ParsePrintStmt(toks, pos + 1)
    else if AnyCheck(toks, pos, [LEFT_BRACE]) then
      CheckedIsNotLast(toks, pos, [LEFT_BRACE]);
      match BlockItems(toks, pos + 1, [])
      case Failure(e) => Failure(e)
      case Success(p) => Success(Parsed(Block(p.value), p.next))
    else
      ParseExpressionStmt(toks, pos)
  }

  /** `while !isAtEnd() { statements.append(statementStmt()) }`; the first error ends the parse. */
  function ParseProgram(toks: seq<Token>, pos: nat, acc: seq<Stmt>): Result<seq<Stmt>, LoxError>
    requires WellFormed(toks) && pos < |toks|
    decreases |toks| - pos
  {
    if AtEnd(toks, pos) then Success(acc)
    else
      match ParseStatement(toks, pos)
      case Failure(e) => Failure(e)
      case Success(p) => ParseProgram(toks, p.next, acc + [p.value])
  }

  // ---------------------------------------------------------------- error recovery

  /** The kinds in the `statementStart` list of atStatementBoundary(). */
  predicate StartsStatement(k: TokenType) {
    k.CLASS? || k.FUN? || k.VAR? || k.FOR? || k.IF? || k.WHILE? || k.PRINT? || k.RETURN?
  }

  /** `atStatementBoundary()`: just after a `;`, or before a statement keyword. */
  predicate AtBoundary(toks: seq<Token>, pos: nat)
    requires 0 < pos < |toks|
  {
    toks[pos - 1].kind == SEMICOLON || StartsStatement(toks[pos].kind)
  }

  /** Where `synchronize()` leaves the cursor. */
  function SyncTarget(toks: seq<Token>, pos: nat): (k: nat)
    requires WellFormed(toks) && pos < |toks| && (pos > 0 || !AtEnd(toks, pos))
    ensures pos <= k < |toks|
    ensures !AtEnd(toks, pos) ==> pos < k
    decreases |toks| - pos
  {
    var p := if AtEnd(toks, pos) then pos else pos + 1;
    if AtEnd(toks, p) || AtBoundary(toks, p) then p else SyncTarget(toks, p)
  }

  /** Where the `repeat` loop of synchronize() ends once it has advanced onto pos. */
  function SyncFrom(toks: seq<Token>, pos: nat): nat
    requires WellFormed(toks) && 0 < pos < |toks|
  {
    if AtEnd(toks, pos) || AtBoundary(toks, pos) then pos else SyncTarget(toks, pos)
  }

  /** A token that is neither EOF nor a boundary is skipped. */
  lemma SyncSkips(toks: seq<Token>, pos: nat)
    requires WellFormed(toks) && 0 < pos < |toks| && !AtEnd(toks, pos) && !AtBoundary(toks, pos)
    ensures pos + 1 < |toks| && SyncFrom(toks, pos) == SyncFrom(toks, pos + 1)
  {
  }

  /**
   * `synchronize()` stops at the first EOF or statement boundary after the token it
   * discards, and skips nothing that is one.
   */
  lemma {:induction false} SyncTargetIsNextBoundary(toks: seq<Token>, pos: nat)
    requires WellFormed(toks) && pos < |toks| && (pos > 0 || !AtEnd(toks, pos))
    ensures var k := SyncTarget(toks, pos);
      && (AtEnd(toks, k) || (k > 0 && AtBoundary(toks, k)))
      && forall j :: pos < j < k ==> !AtEnd(toks, j) && !AtBoundary(toks, j)
    decreases |toks| - pos
  {
    var p := if AtEnd(toks, pos) then pos else pos + 1;
    if !(AtEnd(toks, p) || AtBoundary(toks, p)) {
      SyncTargetIsNextBoundary(toks, p);
    }
  }
}
