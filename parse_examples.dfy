/** Concrete token lists run through the parser spec, and what the printer makes of the trees. */
module ParseExamples {
  import opened Wrappers
  import opened Tokens
  import opened Errors
  import opened Ast
  import opened ParseSpec
  import opened ParseProperties

  function Num(text: string): Token {
    Token(NUMBER(text), text, 1)
  }

  function Op(kind: TokenType, text: string): Token {
    Token(kind, text, 1)
  }

  const End: Token := Token(EOF, "", 1)

  /** A number token is a complete unary operand. */
  lemma {:induction false} NumberOperand(toks: seq<Token>, pos: nat)
    requires WellFormed(toks) && pos < |toks| && toks[pos].kind.NUMBER?
    ensures ParseUnary(toks, pos) == Success(Parsed(Literal(toks[pos]), pos + 1))
  {
    assert CheckAt(toks, pos, LiteralKinds[0]);
    AnyCheckIsSomeOption(toks, pos, UnaryOperators);
  }

  /** The operators of every level carry no payload, so a check against them is plain equality. */
  lemma {:induction false} OperatorCheck(toks: seq<Token>, pos: nat, l: Level)
    requires pos < |toks| && !AtEnd(toks, pos)
    ensures AnyCheck(toks, pos, Operators(l)) <==> toks[pos].kind in Operators(l)
  {
    AnyCheckIsSomeOption(toks, pos, Operators(l));
    if toks[pos].kind in Operators(l) {
      var k :| 0 <= k < |Operators(l)| && Operators(l)[k] == toks[pos].kind;
      assert CheckAt(toks, pos, Operators(l)[k]);
    }
  }

  /** One round of a level loop that finds its operator at pos and an operand after it. */
  lemma {:induction false} LoopStep(toks: seq<Token>, pos: nat, l: Level, left: Expr, right: Expr, n: nat)
    requires WellFormed(toks) && pos + 1 < |toks| && !AtEnd(toks, pos) && toks[pos].kind in Operators(l)
    requires ParseOperand(toks, pos + 1, l) == Success(Parsed(right, n))
    ensures LevelLoop(toks, pos, l, left) == LevelLoop(toks, n, l, Binary(left, toks[pos], right))
  {
    OperatorCheck(toks, pos, l);
  }

  /** A level loop that finds no operator of its own at pos. */
  lemma {:induction false} LoopStop(toks: seq<Token>, pos: nat, l: Level, left: Expr)
    requires WellFormed(toks) && pos < |toks| && (AtEnd(toks, pos) || toks[pos].kind !in Operators(l))
    ensures LevelLoop(toks, pos, l, left) == Success(Parsed(left, pos))
  {
    if AtEnd(toks, pos) {
      CheckFailsAtEnd(toks, pos, Operators(l));
    } else {
      OperatorCheck(toks, pos, l);
    }
  }

  /** A level is its first operand followed by its loop. */
  lemma {:induction false} LevelStart(toks: seq<Token>, pos: nat, l: Level, first: Expr, m: nat)
    requires WellFormed(toks) && pos < |toks|
    requires ParseOperand(toks, pos, l) == Success(Parsed(first, m))
    ensures ParseLevel(toks, pos, l) == LevelLoop(toks, m, l, first)
  {
  }

  /** Once a term ends at EOF, comparison, equality and expression return it unchanged. */
  lemma {:induction false} LevelsAtEnd(toks: seq<Token>, pos: nat, e: Expr, n: nat)
    requires WellFormed(toks) && pos < |toks| && n < |toks| && AtEnd(toks, n)
    requires ParseLevel(toks, pos, TermLevel) == Success(Parsed(e, n))
    ensures ParseExpression(toks, pos) == Success(Parsed(e, n))
  {
    LevelStart(toks, pos, ComparisonLevel, e, n);
    LoopStop(toks, n, ComparisonLevel, e);
    LevelStart(toks, pos, EqualityLevel, e, n);
    LoopStop(toks, n, EqualityLevel, e);
  }

  /** Six tokens spelling `a op1 b op2 c` followed by EOF, with a, b and c numbers. */
  predicate NumbersWith(toks: seq<Token>, op1: TokenType, op2: TokenType) {
    && |toks| == 6
    && toks[0].kind.NUMBER? && toks[1].kind == op1 && toks[2].kind.NUMBER?
    && toks[3].kind == op2 && toks[4].kind.NUMBER? && toks[5].kind == EOF
  }

  /** `4 * 10` from position 2 of `1 + 4 * 10`. */
  lemma {:induction false} ProductOperand(toks: seq<Token>)
    requires NumbersWith(toks, PLUS, STAR)
    ensures ParseLevel(toks, 2, FactorLevel) ==
            Success(Parsed(Binary(Literal(toks[2]), toks[3], Literal(toks[4])), 5))
  {
    NumberOperand(toks, 2);
    NumberOperand(toks, 4);
    LevelStart(toks, 2, FactorLevel, Literal(toks[2]), 3);
    LoopStep(toks, 3, FactorLevel, Literal(toks[2]), Literal(toks[4]), 5);
    LoopStop(toks, 5, FactorLevel, Binary(Literal(toks[2]), toks[3], Literal(toks[4])));
  }

  /** `1 + 4 * 10`: the product is the right operand of the sum. */
  lemma {:induction false} ProductBindsTighter(toks: seq<Token>)
    requires NumbersWith(toks, PLUS, STAR)
    ensures ParseExpression(toks, 0) == Success(Parsed(
              Binary(Literal(toks[0]), toks[1], Binary(Literal(toks[2]), toks[3], Literal(toks[4]))), 5))
  {
    var one := Literal(toks[0]);
    var product := Binary(Literal(toks[2]), toks[3], Literal(toks[4]));
    NumberOperand(toks, 0);
    LevelStart(toks, 0, FactorLevel, one, 1);
    LoopStop(toks, 1, FactorLevel, one);
    ProductOperand(toks);
    LevelStart(toks, 0, TermLevel, one, 1);
    LoopStep(toks, 1, TermLevel, one, product, 5);
    LoopStop(toks, 5, TermLevel, Binary(one, toks[1], product));
    LevelsAtEnd(toks, 0, Binary(one, toks[1], product), 5);
  }

  /** The tree of `1 + 4 * 10` prints as `(+ 1 (* 4 10))`. */
  lemma ProductPrinted()
    ensures Display(Binary(Literal(Num("1")), Op(PLUS, "+"), Binary(Literal(Num("4")), Op(STAR, "*"), Literal(Num("10")))))
            == "(+ 1 (* 4 10))"
  {
    var product := Binary(Literal(Num("4")), Op(STAR, "*"), Literal(Num("10")));
    DisplayBinary(Literal(Num("1")), Op(PLUS, "+"), product);
    DisplayBinary(product.left, product.op, product.right);
  }

  /** `1 * 4 + 10`: the product is the left operand of the sum. */
  lemma {:induction false} ProductOnTheLeft(toks: seq<Token>)
    requires NumbersWith(toks, STAR, PLUS)
    ensures ParseExpression(toks, 0) == Success(Parsed(
              Binary(Binary(Literal(toks[0]), toks[1], Literal(toks[2])), toks[3], Literal(toks[4])), 5))
  {
    var one, four, ten := Literal(toks[0]), Literal(toks[2]), Literal(toks[4]);
    var product := Binary(one, toks[1], four);
    NumberOperand(toks, 0);
    NumberOperand(toks, 2);
    NumberOperand(toks, 4);
    LevelStart(toks, 0, FactorLevel, one, 1);
    LoopStep(toks, 1, FactorLevel, one, four, 3);
    LoopStop(toks, 3, FactorLevel, product);
    LevelStart(toks, 4, FactorLevel, ten, 5);
    LoopStop(toks, 5, FactorLevel, ten);
    LevelStart(toks, 0, TermLevel, product, 3);
    LoopStep(toks, 3, TermLevel, product, ten, 5);
    LoopStop(toks, 5, TermLevel, Binary(product, toks[3], ten));
    LevelsAtEnd(toks, 0, Binary(product, toks[3], ten), 5);
  }

  /** The tree of `1 * 4 + 10` prints as `(+ (* 1 4) 10)`. */
  lemma ProductOnTheLeftPrinted()
    ensures Display(Binary(Binary(Literal(Num("1")), Op(STAR, "*"), Literal(Num("4"))), Op(PLUS, "+"), Literal(Num("10"))))
            == "(+ (* 1 4) 10)"
  {
    var product := Binary(Literal(Num("1")), Op(STAR, "*"), Literal(Num("4")));
    DisplayBinary(product, Op(PLUS, "+"), Literal(Num("10")));
    DisplayBinary(product.left, product.op, product.right);
  }

  /** `1 - 2 - 3` folds to the left: `(1 - 2) - 3`. */
  lemma {:induction false} SubtractionFoldsLeft(toks: seq<Token>)
    requires NumbersWith(toks, MINUS, MINUS)
    ensures ParseExpression(toks, 0) == Success(Parsed(
              Binary(Binary(Literal(toks[0]), toks[1], Literal(toks[2])), toks[3], Literal(toks[4])), 5))
  {
    var one, two, three := Literal(toks[0]), Literal(toks[2]), Literal(toks[4]);
    var first := Binary(one, toks[1], two);
    NumberOperand(toks, 0);
    NumberOperand(toks, 2);
    NumberOperand(toks, 4);
    LevelStart(toks, 0, FactorLevel, one, 1);
    LoopStop(toks, 1, FactorLevel, one);
    LevelStart(toks, 2, FactorLevel, two, 3);
    LoopStop(toks, 3, FactorLevel, two);
    LevelStart(toks, 4, FactorLevel, three, 5);
    LoopStop(toks, 5, FactorLevel, three);
    LevelStart(toks, 0, TermLevel, one, 1);
    LoopStep(toks, 1, TermLevel, one, two, 3);
    LoopStep(toks, 3, TermLevel, first, three, 5);
    LoopStop(toks, 5, TermLevel, Binary(first, toks[3], three));
    LevelsAtEnd(toks, 0, Binary(first, toks[3], three), 5);
  }

  /** An error in the innermost operand comes out of every level unchanged. */
  lemma {:induction false} UnaryErrorPropagates(toks: seq<Token>, pos: nat, e: LoxError)
    requires WellFormed(toks) && pos < |toks| && ParseUnary(toks, pos) == Failure(e)
    ensures ParseExpression(toks, pos) == Failure(e)
  {
    assert ParseLevel(toks, pos, FactorLevel) == Failure(e);
    assert ParseLevel(toks, pos, TermLevel) == Failure(e);
    assert ParseLevel(toks, pos, ComparisonLevel) == Failure(e);
    assert ParseLevel(toks, pos, EqualityLevel) == Failure(e);
  }

  /** A program whose first token starts an expression statement that fails, fails with that error. */
  lemma {:induction false} FirstStatementFails(toks: seq<Token>, e: LoxError)
    requires WellFormed(toks) && !AtEnd(toks, 0) && toks[0].kind !in [PRINT, LEFT_BRACE]
    requires ParseExpression(toks, 0) == Failure(e)
    ensures ParseProgram(toks, 0, []) == Failure(e)
  {
    AnyCheckIsSomeOption(toks, 0, [PRINT]);
    AnyCheckIsSomeOption(toks, 0, [LEFT_BRACE]);
    assert ParseStatement(toks, 0) == Failure(e);
  }

  /** `(1` with nothing after it: the whole parse fails at EOF. */
  lemma {:induction false} MissingClosingParen(toks: seq<Token>)
    requires |toks| == 3 && toks[0].kind == LEFT_PAREN && toks[1].kind.NUMBER? && toks[2].kind == EOF
    ensures ParseProgram(toks, 0, []) == Failure(ParserError(toks[2], "Expected ')' after expression"))
  {
    var one := Literal(toks[1]);
    var e := ParserError(toks[2], "Expected ')' after expression");
    NumberOperand(toks, 1);
    LevelStart(toks, 1, FactorLevel, one, 2);
    LoopStop(toks, 2, FactorLevel, one);
    LevelStart(toks, 1, TermLevel, one, 2);
    LoopStop(toks, 2, TermLevel, one);
    LevelsAtEnd(toks, 1, one, 2);
    assert ParseGrouping(toks, 1) == Failure(e);
    OpenParenPrimary(toks, 0);
    UnaryErrorPropagates(toks, 0, e);
    FirstStatementFails(toks, e);
  }

  lemma {:induction false} OpenParenPrimary(toks: seq<Token>, pos: nat)
    requires WellFormed(toks) && pos + 1 < |toks| && toks[pos].kind == LEFT_PAREN
    ensures ParsePrimary(toks, pos) == ParseGrouping(toks, pos + 1)
    ensures ParseUnary(toks, pos) == ParsePrimary(toks, pos)
  {
    PlainKindIn(toks, pos, LiteralKinds);
    PlainKindIn(toks, pos, [IDENTIFIER("_")]);
    PlainKindIn(toks, pos, [LEFT_PAREN]);
    PlainKindIn(toks, pos, UnaryOperators);
  }

  /** A program of one statement followed by EOF. */
  lemma {:induction false} SingleStatementProgram(toks: seq<Token>, s: Stmt, n: nat)
    requires WellFormed(toks) && !AtEnd(toks, 0) && n < |toks| && AtEnd(toks, n)
    requires ParseStatement(toks, 0) == Success(Parsed(s, n))
    ensures ParseProgram(toks, 0, []) == Success([s])
  {
    ProgramStep(toks, 0, []);
    assert [] + [s] == [s];
  }

  /** A number with no operator after it is a whole expression. */
  lemma {:induction false} NumberExpression(toks: seq<Token>, pos: nat)
    requires WellFormed(toks) && pos + 1 < |toks| && toks[pos].kind.NUMBER?
    requires AtEnd(toks, pos + 1) || toks[pos + 1].kind in [SEMICOLON, RIGHT_PAREN, RIGHT_BRACE]
    ensures ParseExpression(toks, pos) == Success(Parsed(Literal(toks[pos]), pos + 1))
  {
    var lit := Literal(toks[pos]);
    NumberOperand(toks, pos);
    LevelStart(toks, pos, FactorLevel, lit, pos + 1);
    LoopStop(toks, pos + 1, FactorLevel, lit);
    LevelStart(toks, pos, TermLevel, lit, pos + 1);
    LoopStop(toks, pos + 1, TermLevel, lit);
    LevelStart(toks, pos, ComparisonLevel, lit, pos + 1);
    LoopStop(toks, pos + 1, ComparisonLevel, lit);
    LevelStart(toks, pos, EqualityLevel, lit, pos + 1);
    LoopStop(toks, pos + 1, EqualityLevel, lit);
  }

  /** `name = expression ;` inside a block. */
  lemma {:induction false} InitialisedDeclaration(toks: seq<Token>, pos: nat, e: Expr, m: nat)
    requires WellFormed(toks) && pos + 2 < |toks| && m < |toks|
    requires toks[pos].kind.IDENTIFIER? && toks[pos + 1].kind == EQUAL && toks[m].kind == SEMICOLON
    requires ParseExpression(toks, pos + 2) == Success(Parsed(e, m))
    ensures ParseVarDeclaration(toks, pos) == Success(Parsed(Var(toks[pos], Some(e)), m + 1))
  {
    AnyCheckIsSomeOption(toks, pos + 1, [EQUAL]);
    assert CheckAt(toks, pos + 1, [EQUAL][0]);
  }

  /** One item of a block, at a token that is neither `}` nor EOF. */
  lemma {:induction false} BlockItemStep(toks: seq<Token>, pos: nat, acc: seq<Stmt>)
    requires WellFormed(toks) && pos < |toks| && !AtEnd(toks, pos) && toks[pos].kind != RIGHT_BRACE
    ensures var d := ParseVarDeclaration(toks, pos);
            BlockItems(toks, pos, acc) ==
              if d.Failure? then Failure(d.error) else BlockItems(toks, d.value.next, acc + [d.value.value])
  {
  }

  /** The closing `}` of a block. */
  lemma {:induction false} BlockItemsClose(toks: seq<Token>, pos: nat, acc: seq<Stmt>)
    requires WellFormed(toks) && pos < |toks| && toks[pos].kind == RIGHT_BRACE
    ensures BlockItems(toks, pos, acc) == Success(Parsed(acc, pos + 1))
  {
  }

  /** A declaration must open with an identifier. */
  lemma {:induction false} DeclarationNeedsIdentifier(toks: seq<Token>, pos: nat)
    requires WellFormed(toks) && pos < |toks| && !toks[pos].kind.IDENTIFIER?
    ensures ParseVarDeclaration(toks, pos) == Failure(ParserError(toks[pos], "Expected Identifier"))
  {
  }

  /** A program whose first statement fails fails with the same error. */
  lemma {:induction false} FirstStatementError(toks: seq<Token>, e: LoxError)
    requires WellFormed(toks) && !AtEnd(toks, 0) && ParseStatement(toks, 0) == Failure(e)
    ensures ParseProgram(toks, 0, []) == Failure(e)
  {
    ProgramStep(toks, 0, []);
  }

  /** A lone number with no `;` after it, as in the source `12`, is not a program: the `;` is missing at EOF. */
  lemma {:induction false} BareNumberIsRejected(toks: seq<Token>)
    requires |toks| == 2 && toks[0].kind.NUMBER? && toks[1].kind == EOF
    ensures ParseProgram(toks, 0, []) == Failure(ParserError(toks[1], "Expect ';' after expression"))
  {
    NumberExpression(toks, 0);
    ExpressionStatement(toks, 0);
    ExpressionStmtShape(toks, 0);
    AnyCheckIsSomeOption(toks, 0, [PRINT]);
    AnyCheckIsSomeOption(toks, 0, [LEFT_BRACE]);
    assert ParseStatement(toks, 0) == ParseExpressionStmt(toks, 0);
    FirstStatementError(toks, ParserError(toks[1], "Expect ';' after expression"));
  }

  /** Block items are bare declarations, so a block that opens with `var`, as in `{ var a; }`, is rejected there. */
  lemma {:induction false} VarKeywordInBlockIsRejected(toks: seq<Token>)
    requires WellFormed(toks) && |toks| > 1 && toks[0].kind == LEFT_BRACE && toks[1].kind == VAR
    ensures ParseProgram(toks, 0, []) == Failure(ParserError(toks[1], "Expected Identifier"))
  {
    DeclarationNeedsIdentifier(toks, 1);
    BlockItemStep(toks, 1, []);
    BraceStatement(toks, 0);
    FirstStatementError(toks, ParserError(toks[1], "Expected Identifier"));
  }

  /** `{ a = 1; }` is a block holding one declaration of a. */
  lemma {:induction false} BareDeclarationInBlock(toks: seq<Token>)
    requires |toks| == 7 && toks[0].kind == LEFT_BRACE && toks[1].kind.IDENTIFIER? && toks[2].kind == EQUAL
    requires toks[3].kind.NUMBER? && toks[4].kind == SEMICOLON && toks[5].kind == RIGHT_BRACE && toks[6].kind == EOF
    ensures ParseProgram(toks, 0, []) == Success([Block([Var(toks[1], Some(Literal(toks[3])))])])
  {
    var decl := Var(toks[1], Some(Literal(toks[3])));
    NumberExpression(toks, 3);
    InitialisedDeclaration(toks, 1, Literal(toks[3]), 4);
    BlockItemStep(toks, 1, []);
    assert [] + [decl] == [decl];
    BlockItemsClose(toks, 5, [decl]);
    BraceStatement(toks, 0);
    SingleStatementProgram(toks, Block([decl]), 6);
  }
}
