/**
 * The recursive-descent parser as a class with one mutable cursor, `current`, over a
 * token array that ends with EOF. Every rule method is proved to compute exactly what
 * the corresponding ParseSpec function says.
 */
module Parsing {
  import opened Wrappers
  import opened Tokens
  import opened Errors
  import opened Ast
  import opened ParseSpec

  /** A rule's outcome agrees with the spec: same node and cursor on success, same error on failure. */
  predicate Agrees<T(==)>(r: Result<T, LoxError>, current: nat, spec: Result<Parsed<T>, LoxError>) {
    match spec
    case Success(p) => r == Success(p.value) && current == p.next
    case Failure(e) => r == Failure(e)
  }

  class Parser {
    const tokens: seq<Token>
    var current: nat

    ghost predicate Valid()
      reads this
    {
      WellFormed(tokens) && current < |tokens|
    }

    constructor (tokens: seq<Token>)
      requires WellFormed(tokens)
      ensures Valid() && this.tokens == tokens && current == 0
    {
      this.tokens := tokens;
      current := 0;
    }

    // ------------------------------------------------------------ helpers

    method Peek() returns (t: Token)
      requires Valid()
      ensures t == tokens[current]
    {
      t := tokens[current];
    }

    method IsAtEnd() returns (b: bool)
      requires Valid()
      ensures b <==> AtEnd(tokens, current)
    {
      var t := Peek();
      b := t.kind == EOF;
    }

    method Previous() returns (t: Token)
      requires Valid() && current > 0
      ensures t == tokens[current - 1]
    {
      t := tokens[current - 1];
    }

    /** Moves one token forward unless at EOF; returns the token just passed over. */
    method Advance() returns (t: Token)
      requires Valid() && (current > 0 || !AtEnd(tokens, current))
      modifies this`current
      ensures Valid()
      ensures current == if AtEnd(tokens, old(current)) then old(current) else old(current) + 1
      ensures current > 0 && t == tokens[current - 1]
    {
      var atEnd := IsAtEnd();
      if !atEnd {
        current := current + 1;
      }
      t := Previous();
    }

    method Check(t: TokenType) returns (b: bool)
      requires Valid()
      ensures b <==> CheckAt(tokens, current, t)
    {
      var atEnd := IsAtEnd();
      if atEnd {
        return false;
      }
      var p := Peek();
      b := SameType(p.kind, t);
    }

    /** Tries the options in order; on the first hit consumes one token and returns it. */
    method Match(options: seq<TokenType>) returns (r: Option<Token>)
      requires Valid()
      modifies this`current
      ensures Valid()
      ensures AnyCheck(tokens, old(current), options) ==>
                r == Some(tokens[old(current)]) && current == old(current) + 1
      ensures !AnyCheck(tokens, old(current), options) ==> r == None && current == old(current)
    {
      for i := 0 to |options|
        invariant current == old(current)
        invariant AnyCheck(tokens, current, options) == AnyCheck(tokens, current, options[i..])
      {
        assert options[i..][1..] == options[i + 1..];
        var hit := Check(options[i]);
        if hit {
          var t := Advance();
          return Some(t);
        }
      }
      return None;
    }

    /** Consumes a token of kind t, or throws a ParserError at the current token without moving. */
    method Consume(t: TokenType, message: string) returns (r: Result<Token, LoxError>)
      requires Valid()
      modifies this`current
      ensures Valid()
      ensures r == if CheckAt(tokens, old(current), t) then Success(tokens[old(current)])
                   else Failure(ParserError(tokens[old(current)], message))
      ensures current == if CheckAt(tokens, old(current), t) then old(current) + 1 else old(current)
    {
      var hit := Check(t);
      if hit {
        var tok := Advance();
        return Success(tok);
      }
      var p := Peek();
      return Failure(ParserError(p, message));
    }

    // ------------------------------------------------------------ error recovery

    method AtStatementBoundary() returns (b: bool)
      requires Valid() && current > 0
      ensures b <==> AtBoundary(tokens, current)
    {
      var prev := Previous();
      var p := Peek();
      b := prev.kind == SEMICOLON || StartsStatement(p.kind);
    }

    /** `repeat { advance() } while !(isAtEnd() || atStatementBoundary())` */
    method Synchronize()
      requires Valid() && (current > 0 || !AtEnd(tokens, current))
      modifies this`current
      ensures Valid() && current == SyncTarget(tokens, old(current))
    {
      ghost var goal := SyncTarget(tokens, current);
      var _ := Advance();
      while true
        invariant Valid() && current > 0
        invariant goal == SyncFrom(tokens, current)
        decreases |tokens| - current
      {
        var atEnd := IsAtEnd();
        if atEnd { break; }
        var boundary := AtStatementBoundary();
        if boundary { break; }
        SyncSkips(tokens, current);
        var _ := Advance();
      }
    }

    // ------------------------------------------------------------ expression rules

    method Primary() returns (r: Result<Expr, LoxError>)
      requires Valid()
      modifies this`current
      ensures Valid() && Agrees(r, current, ParsePrimary(tokens, old(current)))
      decreases |tokens| - current, 0
    {
      var m := Match(LiteralKinds);
      if m.Some? {
        var t := Previous();
        return Success(Literal(t));
      }
      m := Match([IDENTIFIER("_")]);
      if m.Some? {
        var t := Previous();
        return Success(Variable(t));
      }
      m := Match([LEFT_PAREN]);
      if m.Some? {
        var inner := Expression();
        if inner.Failure? {
          return Failure(inner.error);
        }
        var closing := Consume(RIGHT_PAREN, "Expected ')' after expression");
        if closing.Failure? {
          return Failure(closing.error);
        }
        return Success(Grouping(inner.value));
      }
      var p := Peek();
      return Failure(ParserError(p, "Expected literal or open parentheses"));
    }

    method Unary() returns (r: Result<Expr, LoxError>)
      requires Valid()
      modifies this`current
      ensures Valid() && Agrees(r, current, ParseUnary(tokens, old(current)))
      decreases |tokens| - current, 1
    {
      var op := Match(UnaryOperators);
      if op.Some? {
        var right := Unary();
        if right.Failure? {
          return Failure(right.error);
        }
        return Success(Ast.Unary(op.value, right.value));
      }
      r := Primary();
    }

    method Factor() returns (r: Result<Expr, LoxError>)
      requires Valid()
      modifies this`current
      ensures Valid() && Agrees(r, current, ParseLevel(tokens, old(current), FactorLevel))
      decreases |tokens| - current, 2
    {
      var first := Unary();
      if first.Failure? {
        return Failure(first.error);
      }
      var expr := first.value;
      while true
        invariant Valid() && old(current) < current
        invariant ParseLevel(tokens, old(current), FactorLevel) == LevelLoop(tokens, current, FactorLevel, expr)
        decreases |tokens| - current
      {
        var m := Match([SLASH, STAR]);
        if m.None? { break; }
        var op := Previous();
        var right := Unary();
        if right.Failure? {
          return Failure(right.error);
        }
        expr := Binary(expr, op, right.value);
      }
      return Success(expr);
    }

    method Term() returns (r: Result<Expr, LoxError>)
      requires Valid()
      modifies this`current
      ensures Valid() && Agrees(r, current, ParseLevel(tokens, old(current), TermLevel))
      decreases |tokens| - current, 3
    {
      var first := Factor();
      if first.Failure? {
        return Failure(first.error);
      }
      var expr := first.value;
      while true
        invariant Valid() && old(current) < current
        invariant ParseLevel(tokens, old(current), TermLevel) == LevelLoop(tokens, current, TermLevel, expr)
        decreases |tokens| - current
      {
        var m := Match([PLUS, MINUS]);
        if m.None? { break; }
        var op := Previous();
        var right := Factor();
        if right.Failure? {
          return Failure(right.error);
        }
        expr := Binary(expr, op, right.value);
      }
      return Success(expr);
    }

    method Comparison() returns (r: Result<Expr, LoxError>)
      requires Valid()
      modifies this`current
      ensures Valid() && Agrees(r, current, ParseLevel(tokens, old(current), ComparisonLevel))
      decreases |tokens| - current, 4
    {
      var first := Term();
      if first.Failure? {
        return Failure(first.error);
      }
      var expr := first.value;
      while true
        invariant Valid() && old(current) < current
        invariant ParseLevel(tokens, old(current), ComparisonLevel) == LevelLoop(tokens, current, ComparisonLevel, expr)
        decreases |tokens| - current
      {
        var m := Match([GREATER, GREATER_EQUAL, LESS, LESS_EQUAL]);
        if m.None? { break; }
        var op := Previous();
        var right := Term();
        if right.Failure? {
          return Failure(right.error);
        }
        expr := Binary(expr, op, right.value);
      }
      return Success(expr);
    }

    method Equality() returns (r: Result<Expr, LoxError>)
      requires Valid()
      modifies this`current
      ensures Valid() && Agrees(r, current, ParseLevel(tokens, old(current), EqualityLevel))
      decreases |tokens| - current, 5
    {
      var first := Comparison();
      if first.Failure? {
        return Failure(first.error);
      }
      var expr := first.value;
      while true
        invariant Valid() && old(current) < current
        invariant ParseLevel(tokens, old(current), EqualityLevel) == LevelLoop(tokens, current, EqualityLevel, expr)
        decreases |tokens| - current
      {
        var m := Match([BANG_EQUAL, EQUAL_EQUAL]);
        if m.None? { break; }
        var op := Previous();
        var right := Comparison();
        if right.Failure? {
          return Failure(right.error);
        }
        expr := Binary(expr, op, right.value);
      }
      return Success(expr);
    }

    method Expression() returns (r: Result<Expr, LoxError>)
      requires Valid()
      modifies this`current
      ensures Valid() && Agrees(r, current, ParseExpression(tokens, old(current)))
      decreases |tokens| - current, 6
    {
      r := Equality();
    }

    // ------------------------------------------------------------ statement rules

    method StatementStmt() returns (r: Result<Stmt, LoxError>)
      requires Valid()
      modifies this`current
      ensures Valid() && Agrees(r, current, ParseStatement(tokens, old(current)))
    {
      var m := Match([PRINT]);
      if m.Some? {
        r := PrintStmt();
        return;
      }
      m := Match([LEFT_BRACE]);
      if m.Some? {
        var items := BlockStmt();
        if items.Failure? {
          return Failure(items.error);
        }
        return Success(Block(items.value));
      }
      r := ExpressionStmt();
    }

    method PrintStmt() returns (r: Result<Stmt, LoxError>)
      requires Valid()
      modifies this`current
      ensures Valid() && Agrees(r, current, ParsePrintStmt(tokens, old(current)))
    {
      var value := Expression();
      if value.Failure? {
        return Failure(value.error);
      }
      var semi := Consume(SEMICOLON, "Expect ';' after value");
      if semi.Failure? {
        return Failure(semi.error);
      }
      return Success(Print(value.value));
    }

    /** A bare `IDENTIFIER [ "=" expression ] ";"`. */
    method VarDeclarationStmt() returns (r: Result<Stmt, LoxError>)
      requires Valid()
      modifies this`current
      ensures Valid() && Agrees(r, current, ParseVarDeclaration(tokens, old(current)))
    {
      ghost var start := current;
      var ident := Consume(IDENTIFIER("_"), "Expected Identifier");
      if ident.Failure? {
        return Failure(ident.error);
      }
      NamedVarDeclaration(tokens, start);
      ghost var init := ParseInitializer(tokens, current);
      var initializer := Initializer();
      if initializer.Failure? {
        assert init.Failure? && init.error == initializer.error;
        return Failure(initializer.error);
      }
      assert init.Success? && init.value.value == initializer.value && init.value.next == current;
      var semi := Consume(SEMICOLON, "Expect ';' after variable declaration.");
      if semi.Failure? {
        return Failure(semi.error);
      }
      return Success(Var(ident.value, initializer.value));
    }

    /** The optional `= expression` of a declaration, held in a local of the source's varDeclaration. */
    method Initializer() returns (r: Result<Option<Expr>, LoxError>)
      requires Valid()
      modifies this`current
      ensures Valid() && Agrees(r, current, ParseInitializer(tokens, old(current)))
    {
      var eq := Match([EQUAL]);
      if eq.None? {
        return Success(None);
      }
      var value := Expression();
      if value.Failure? {
        return Failure(value.error);
      }
      return Success(Some(value.value));
    }

    method ExpressionStmt() returns (r: Result<Stmt, LoxError>)
      requires Valid()
      modifies this`current
      ensures Valid() && Agrees(r, current, ParseExpressionStmt(tokens, old(current)))
    {
      var value := Expression();
      if value.Failure? {
        return Failure(value.error);
      }
      var semi := Consume(SEMICOLON, "Expect ';' after expression");
      if semi.Failure? {
        return Failure(semi.error);
      }
      return Success(Ast.Expression(value.value));
    }

    /** The items of a block, its `{` already consumed, through the closing `}`. */
    method BlockStmt() returns (r: Result<seq<Stmt>, LoxError>)
      requires Valid()
      modifies this`current
      ensures Valid() && Agrees(r, current, BlockItems(tokens, old(current), []))
    {
      var statements: seq<Stmt> := [];
      while true
        invariant Valid() && old(current) <= current
        invariant BlockItems(tokens, old(current), []) == BlockItems(tokens, current, statements)
        decreases |tokens| - current
      {
        var closing := Check(RIGHT_BRACE);
        var atEnd := IsAtEnd();
        if closing || atEnd { break; }
        var item := VarDeclarationStmt();
        if item.Failure? {
          return Failure(item.error);
        }
        statements := statements + [item.value];
      }
      var brace := Consume(RIGHT_BRACE, "Expected closing brace '}' after block");
      if brace.Failure? {
        return Failure(brace.error);
      }
      return Success(statements);
    }

    /**
     * Parses statements until EOF. On the first ParserError the statements are dropped
     * and the error's report is what the source prints.
     */
    method Parse() returns (statements: Option<seq<Stmt>>, printed: Option<string>)
      requires Valid()
      modifies this`current
      ensures Valid()
      ensures match ParseProgram(tokens, old(current), [])
              case Success(ss) => statements == Some(ss) && printed == None
              case Failure(e) => statements == None && printed == Some(Report(e))
    {
      var acc: seq<Stmt> := [];
      while true
        invariant Valid()
        invariant ParseProgram(tokens, old(current), []) == ParseProgram(tokens, current, acc)
        decreases |tokens| - current
      {
        var atEnd := IsAtEnd();
        if atEnd { break; }
        var statement := StatementStmt();
        if statement.Failure? {
          return None, Some(Report(statement.error));
        }
        acc := acc + [statement.value];
      }
      return Some(acc), None;
    }
  }

  /** `Parser(tokens: tokens).parse()`. */
  method ParseTokens(tokens: seq<Token>) returns (statements: Option<seq<Stmt>>, printed: Option<string>)
    requires WellFormed(tokens)
    ensures match ParseProgram(tokens, 0, [])
            case Success(ss) => statements == Some(ss) && printed == None
            case Failure(e) => statements == None && printed == Some(Report(e))
  {
    var parser := new Parser(tokens);
    statements, printed := parser.Parse();
  }
}
