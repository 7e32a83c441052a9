/** What the parser guarantees, proved about the ParseSpec functions the Parser class is verified against. */
module ParseProperties {
  import opened Wrappers
  import opened Tokens
  import opened Errors
  import opened Ast
  import opened ParseSpec

  // ---------------------------------------------------------------- match(oneOf:)

  /** `match` succeeds exactly when some option checks; the options are tried in order. */
  lemma {:induction false} AnyCheckIsSomeOption(toks: seq<Token>, pos: nat, options: seq<TokenType>)
    requires pos < |toks|
    ensures AnyCheck(toks, pos, options) <==> exists k :: 0 <= k < |options| && CheckAt(toks, pos, options[k])
  {
    if |options| > 0 {
      AnyCheckIsSomeOption(toks, pos, options[1..]);
      if CheckAt(toks, pos, options[0]) {
        assert 0 < |options| && CheckAt(toks, pos, options[0]);
      } else if exists k :: 0 <= k < |options| && CheckAt(toks, pos, options[k]) {
        var k :| 0 <= k < |options| && CheckAt(toks, pos, options[k]);
        assert options[1..][k - 1] == options[k];
      }
    }
  }

  /** For a token kind without payload, `match` succeeds exactly when that kind is one of the options. */
  lemma {:induction false} PlainKindIn(toks: seq<Token>, pos: nat, options: seq<TokenType>)
    requires pos < |toks| && !AtEnd(toks, pos)
    requires !toks[pos].kind.IDENTIFIER? && !toks[pos].kind.STRING? && !toks[pos].kind.NUMBER?
    ensures AnyCheck(toks, pos, options) <==> toks[pos].kind in options
  {
    if |options| > 0 {
      PlainKindIn(toks, pos, options[1..]);
      assert options == [options[0]] + options[1..];
    }
  }

  /** `check` is false at EOF whatever kind is asked for. */
  lemma CheckFailsAtEnd(toks: seq<Token>, pos: nat, options: seq<TokenType>)
    requires pos < |toks| && AtEnd(toks, pos)
    ensures !AnyCheck(toks, pos, options)
  {
    AnyCheckIsSomeOption(toks, pos, options);
  }

  // ---------------------------------------------------------------- precedence

  /** How loosely an operator binds: 1 for `*` `/`, up to 4 for `==` `!=`; 0 for no binary operator. */
  function OperatorRank(t: TokenType): nat {
    if t.SLASH? || t.STAR? then 1
    else if t.PLUS? || t.MINUS? then 2
    else if t.GREATER? || t.GREATER_EQUAL? || t.LESS? || t.LESS_EQUAL? then 3
    else if t.BANG_EQUAL? || t.EQUAL_EQUAL? then 4
    else 0
  }

  /** The rank of the outermost operator of e; unary, literal, variable and grouped nodes have 0. */
  function Prec(e: Expr): nat {
    if e.Binary? then OperatorRank(e.op.kind) else 0
  }

  /**
   * The shape a precedence-climbing parse produces: each binary node carries a binary
   * operator, its left operand binds at least as tightly (so chains fold to the left) and
   * its right operand strictly more tightly; a unary operand is itself unary or primary.
   */
  predicate WellPrecedenced(e: Expr) {
    match e
    case Binary(left, op, right) =>
      Prec(e) > 0 && Prec(left) <= Prec(e) && Prec(right) < Prec(e)
      && WellPrecedenced(left) && WellPrecedenced(right)
    case Grouping(inner) => WellPrecedenced(inner)
    case Literal(_) => true
    case Unary(op, right) => Prec(right) == 0 && WellPrecedenced(right)
    case Variable(_) => true
  }

  predicate ShapedWithin(r: Result<Parsed<Expr>, LoxError>, bound: nat) {
    r.Success? ==> WellPrecedenced(r.value.value) && Prec(r.value.value) <= bound
  }

  lemma OperatorRankOfLevel(t: TokenType, l: Level)
    requires exists k :: 0 <= k < |Operators(l)| && SameType(t, Operators(l)[k])
    ensures OperatorRank(t) == Rank(l) + 1
  {
  }

  /** The operator a level's loop matched has that level's rank. */
  lemma MatchedOperatorRank(toks: seq<Token>, pos: nat, l: Level)
    requires pos < |toks| && AnyCheck(toks, pos, Operators(l))
    ensures OperatorRank(toks[pos].kind) == Rank(l) + 1
  {
    AnyCheckIsSomeOption(toks, pos, Operators(l));
    OperatorRankOfLevel(toks[pos].kind, l);
  }

  lemma {:induction false} GroupingShape(toks: seq<Token>, pos: nat)
    requires WellFormed(toks) && pos < |toks|
    ensures ShapedWithin(ParseGrouping(toks, pos), 0)
    decreases |toks| - pos, 16
  {
    ExpressionShape(toks, pos);
  }

  lemma {:induction false} PrimaryShape(toks: seq<Token>, pos: nat)
    requires WellFormed(toks) && pos < |toks|
    ensures ShapedWithin(ParsePrimary(toks, pos), 0)
    decreases |toks| - pos, 1
  {
    if !AnyCheck(toks, pos, LiteralKinds) && !AnyCheck(toks, pos, [IDENTIFIER("_")])
       && AnyCheck(toks, pos, [LEFT_PAREN]) {
      CheckedIsNotLast(toks, pos, [LEFT_PAREN]);
      GroupingShape(toks, pos + 1);
    }
  }

  lemma {:induction false} UnaryShape(toks: seq<Token>, pos: nat)
    requires WellFormed(toks) && pos < |toks|
    ensures ShapedWithin(ParseUnary(toks, pos), 0)
    decreases |toks| - pos, 2
  {
    if AnyCheck(toks, pos, UnaryOperators) {
      CheckedIsNotLast(toks, pos, UnaryOperators);
      UnaryShape(toks, pos + 1);
    } else {
      PrimaryShape(toks, pos);
    }
  }

  lemma {:induction false} OperandShape(toks: seq<Token>, pos: nat, l: Level)
    requires WellFormed(toks) && pos < |toks|
    ensures ShapedWithin(ParseOperand(toks, pos, l), Rank(l))
    decreases |toks| - pos, 3 * Rank(l) + 3
  {
    if l == FactorLevel {
      UnaryShape(toks, pos);
    } else {
      LevelShape(toks, pos, Below(l));
    }
  }

  lemma {:induction false} LoopShape(toks: seq<Token>, pos: nat, l: Level, left: Expr)
    requires WellFormed(toks) && pos < |toks|
    requires WellPrecedenced(left) && Prec(left) <= Rank(l) + 1
    ensures ShapedWithin(LevelLoop(toks, pos, l, left), Rank(l) + 1)
    decreases |toks| - pos, 3 * Rank(l) + 4
  {
    if AnyCheck(toks, pos, Operators(l)) {
      CheckedIsNotLast(toks, pos, Operators(l));
      OperandShape(toks, pos + 1, l);
      MatchedOperatorRank(toks, pos, l);
      var op := toks[pos];
      var r := ParseOperand(toks, pos + 1, l);
      if r.Success? {
        LoopShape(toks, r.value.next, l, Binary(left, op, r.value.value));
      }
    }
  }

  lemma {:induction false} LevelShape(toks: seq<Token>, pos: nat, l: Level)
    requires WellFormed(toks) && pos < |toks|
    ensures ShapedWithin(ParseLevel(toks, pos, l), Rank(l) + 1)
    decreases |toks| - pos, 3 * Rank(l) + 5
  {
    OperandShape(toks, pos, l);
    var r := ParseOperand(toks, pos, l);
    if r.Success? {
      LoopShape(toks, r.value.next, l, r.value.value);
    }
  }

  /**
   * Every parsed expression respects precedence and left-associativity: `*` and `/` bind
   * tighter than `+` and `-`, which bind tighter than the comparisons, then `==` and `!=`.
   */
  lemma {:induction false} ExpressionShape(toks: seq<Token>, pos: nat)
    requires WellFormed(toks) && pos < |toks|
    ensures ShapedWithin(ParseExpression(toks, pos), 4)
    decreases |toks| - pos, 15
  {
    LevelShape(toks, pos, EqualityLevel);
  }

  // ---------------------------------------------------------------- consumed tokens

  /** The kinds of the tokens an expression was parsed from, parentheses included, in order. */
  function Spelled(e: Expr): seq<TokenType> {
    match e
    case Binary(left, op, right) => Spelled(left) + [op.kind] + Spelled(right)
    case Grouping(inner) => [LEFT_PAREN] + Spelled(inner) + [RIGHT_PAREN]
    case Literal(value) => [value.kind]
    case Unary(op, right) => [op.kind] + Spelled(right)
    case Variable(name) => [name.kind]
  }

  /** The kinds of a run of tokens, in order. */
  function KindsOf(ts: seq<Token>): (ks: seq<TokenType>)
    ensures |ks| == |ts|
  {
    if ts == [] then [] else [ts[0].kind] + KindsOf(ts[1..])
  }

  /** The kinds of toks[a..b]. */
  function Kinds(toks: seq<Token>, a: nat, b: nat): seq<TokenType>
    requires a <= b <= |toks|
  {
    KindsOf(toks[a..b])
  }

  lemma {:induction false} KindsOfAppend(x: seq<Token>, y: seq<Token>)
    ensures KindsOf(x + y) == KindsOf(x) + KindsOf(y)
  {
    if x == [] {
      assert x + y == y;
    } else {
      assert (x + y)[1..] == x[1..] + y;
      KindsOfAppend(x[1..], y);
    }
  }

  lemma {:induction false} KindsSplit(toks: seq<Token>, a: nat, m: nat, b: nat)
    requires a <= m <= b <= |toks|
    ensures Kinds(toks, a, b) == Kinds(toks, a, m) + Kinds(toks, m, b)
  {
    assert toks[a..b] == toks[a..m] + toks[m..b];
    KindsOfAppend(toks[a..m], toks[m..b]);
  }

  /** A successful parse at pos spelled exactly the tokens from pos up to where it stopped. */
  predicate SpellsSpan(toks: seq<Token>, pos: nat, r: Result<Parsed<Expr>, LoxError>) {
    r.Success? ==> pos <= r.value.next <= |toks| && Spelled(r.value.value) == Kinds(toks, pos, r.value.next)
  }

  lemma OneKind(toks: seq<Token>, pos: nat)
    requires pos < |toks|
    ensures Kinds(toks, pos, pos + 1) == [toks[pos].kind]
  {
    assert toks[pos..pos + 1] == [toks[pos]];
  }

  /** For a kind without payload, SameType is plain equality. */
  lemma PlainKind(a: TokenType, b: TokenType)
    requires !b.IDENTIFIER? && !b.STRING? && !b.NUMBER?
    ensures SameType(a, b) <==> a == b
  {
  }

  lemma {:induction false} ParenKinds(toks: seq<Token>, pos: nat, n: nat)
    requires pos < n < |toks|
    requires toks[pos].kind == LEFT_PAREN && toks[n].kind == RIGHT_PAREN
    ensures Kinds(toks, pos, n + 1) == [LEFT_PAREN] + Kinds(toks, pos + 1, n) + [RIGHT_PAREN]
  {
    KindsSplit(toks, pos + 1, n, n + 1);
    OneKind(toks, n);
  }

  /** `( expression )`: the parentheses around the inner expression's tokens. */
  lemma {:induction false} GroupingSpells(toks: seq<Token>, pos: nat)
    requires WellFormed(toks) && 0 < pos < |toks| && toks[pos - 1].kind == LEFT_PAREN
    ensures SpellsSpan(toks, pos - 1, ParseGrouping(toks, pos))
    decreases |toks| - pos, 16
  {
    ExpressionSpells(toks, pos);
    var inner := ParseExpression(toks, pos);
    if inner.Success? && CheckAt(toks, inner.value.next, RIGHT_PAREN) {
      var n := inner.value.next;
      PlainKind(toks[n].kind, RIGHT_PAREN);
      ParenKinds(toks, pos - 1, n);
    }
  }

  /** A literal or a variable is spelled by the one token it was parsed from. */
  lemma {:induction false} AtomSpells(toks: seq<Token>, pos: nat)
    requires WellFormed(toks) && pos < |toks|
    requires AnyCheck(toks, pos, LiteralKinds) || AnyCheck(toks, pos, [IDENTIFIER("_")])
    ensures SpellsSpan(toks, pos, ParsePrimary(toks, pos))
  {
    OneKind(toks, pos);
    if AnyCheck(toks, pos, LiteralKinds) {
      CheckedIsNotLast(toks, pos, LiteralKinds);
      assert ParsePrimary(toks, pos) == Success(Parsed(Literal(toks[pos]), pos + 1));
    } else {
      CheckedIsNotLast(toks, pos, [IDENTIFIER("_")]);
      assert ParsePrimary(toks, pos) == Success(Parsed(Variable(toks[pos]), pos + 1));
    }
  }

  /** `match` with a single option is `check` of it. */
  lemma SingleCheck(toks: seq<Token>, pos: nat, t: TokenType)
    requires pos < |toks|
    ensures AnyCheck(toks, pos, [t]) <==> CheckAt(toks, pos, t)
  {
    assert [t][1..] == [];
  }

  lemma {:induction false} PrimarySpells(toks: seq<Token>, pos: nat)
    requires WellFormed(toks) && pos < |toks|
    ensures SpellsSpan(toks, pos, ParsePrimary(toks, pos))
    decreases |toks| - pos, 1
  {
    if AnyCheck(toks, pos, LiteralKinds) || AnyCheck(toks, pos, [IDENTIFIER("_")]) {
      AtomSpells(toks, pos);
    } else if AnyCheck(toks, pos, [LEFT_PAREN]) {
      ParenSpells(toks, pos);
    }
  }

  /** A primary opened by `(` spells the tokens from the `(` through its `)`. */
  lemma {:induction false} ParenSpells(toks: seq<Token>, pos: nat)
    requires WellFormed(toks) && pos < |toks|
    requires !AnyCheck(toks, pos, LiteralKinds) && !AnyCheck(toks, pos, [IDENTIFIER("_")])
    requires AnyCheck(toks, pos, [LEFT_PAREN])
    ensures SpellsSpan(toks, pos, ParsePrimary(toks, pos))
    decreases |toks| - pos, 0
  {
    CheckedIsNotLast(toks, pos, [LEFT_PAREN]);
    SingleCheck(toks, pos, LEFT_PAREN);
    PlainKind(toks[pos].kind, LEFT_PAREN);
    GroupingSpells(toks, pos + 1);
  }

  lemma {:induction false} UnarySpells(toks: seq<Token>, pos: nat)
    requires WellFormed(toks) && pos < |toks|
    ensures SpellsSpan(toks, pos, ParseUnary(toks, pos))
    decreases |toks| - pos, 2
  {
    if AnyCheck(toks, pos, UnaryOperators) {
      CheckedIsNotLast(toks, pos, UnaryOperators);
      UnarySpells(toks, pos + 1);
      var right := ParseUnary(toks, pos + 1);
      if right.Success? {
        OneKind(toks, pos);
        KindsSplit(toks, pos, pos + 1, right.value.next);
      }
    } else {
      PrimarySpells(toks, pos);
    }
  }

  lemma {:induction false} OperandSpells(toks: seq<Token>, pos: nat, l: Level)
    requires WellFormed(toks) && pos < |toks|
    ensures SpellsSpan(toks, pos, ParseOperand(toks, pos, l))
    decreases |toks| - pos, 3 * Rank(l) + 3
  {
    if l == FactorLevel {
      UnarySpells(toks, pos);
    } else {
      LevelSpells(toks, pos, Below(l));
    }
  }

  /** One fold step: left, then the operator at pos, then toks[pos+1..m], then the rest up to n. */
  lemma StepSpells(toks: seq<Token>, pos: nat, m: nat, n: nat, left: seq<TokenType>)
    requires pos < m <= n <= |toks|
    ensures left + [toks[pos].kind] + Kinds(toks, pos + 1, m) + Kinds(toks, m, n) == left + Kinds(toks, pos, n)
  {
    OneKind(toks, pos);
    KindsSplit(toks, pos, pos + 1, m);
    KindsSplit(toks, pos, m, n);
  }

  lemma {:induction false} LoopSpells(toks: seq<Token>, pos: nat, l: Level, left: Expr)
    requires WellFormed(toks) && pos < |toks|
    ensures var r := LevelLoop(toks, pos, l, left);
            r.Success? ==> Spelled(r.value.value) == Spelled(left) + Kinds(toks, pos, r.value.next)
    decreases |toks| - pos, 3 * Rank(l) + 4
  {
    if AnyCheck(toks, pos, Operators(l)) {
      CheckedIsNotLast(toks, pos, Operators(l));
      OperandSpells(toks, pos + 1, l);
      var r := ParseOperand(toks, pos + 1, l);
      if r.Success? {
        var e := Binary(left, toks[pos], r.value.value);
        LoopSpells(toks, r.value.next, l, e);
        var done := LevelLoop(toks, r.value.next, l, e);
        if done.Success? {
          StepSpells(toks, pos, r.value.next, done.value.next, Spelled(left));
        }
      }
    } else {
      assert toks[pos..pos] == [];
    }
  }

  lemma {:induction false} LevelSpells(toks: seq<Token>, pos: nat, l: Level)
    requires WellFormed(toks) && pos < |toks|
    ensures SpellsSpan(toks, pos, ParseLevel(toks, pos, l))
    decreases |toks| - pos, 3 * Rank(l) + 5
  {
    OperandSpells(toks, pos, l);
    var r := ParseOperand(toks, pos, l);
    if r.Success? {
      LoopSpells(toks, r.value.next, l, r.value.value);
      var done := LevelLoop(toks, r.value.next, l, r.value.value);
      if done.Success? {
        KindsSplit(toks, pos, r.value.next, done.value.next);
      }
    }
  }

  /** An expression parse consumes exactly the tokens its tree is spelled with, nothing skipped or added. */
  lemma {:induction false} ExpressionSpells(toks: seq<Token>, pos: nat)
    requires WellFormed(toks) && pos < |toks|
    ensures SpellsSpan(toks, pos, ParseExpression(toks, pos))
    decreases |toks| - pos, 15
  {
    LevelSpells(toks, pos, EqualityLevel);
  }

  // ---------------------------------------------------------------- unary

  /** Where the run of consecutive `!`/`-` tokens from pos ends. */
  function RunEnd(toks: seq<Token>, pos: nat): (k: nat)
    requires WellFormed(toks) && pos < |toks|
    ensures pos <= k < |toks| && !AnyCheck(toks, k, UnaryOperators)
    decreases |toks| - pos
  {
    if AnyCheck(toks, pos, UnaryOperators) then
      CheckedIsNotLast(toks, pos, UnaryOperators);
      RunEnd(toks, pos + 1)
    else pos
  }

  /** e under the operators from pos to RunEnd(toks, pos), the first one outermost. */
  function UnderRun(toks: seq<Token>, pos: nat, e: Expr): Expr
    requires WellFormed(toks) && pos < |toks|
    decreases |toks| - pos
  {
    if AnyCheck(toks, pos, UnaryOperators) then
      CheckedIsNotLast(toks, pos, UnaryOperators);
      Unary(toks[pos], UnderRun(toks, pos + 1, e))
    else e
  }

  /** A parse result with its tree, if any, put under the run of operators from pos. */
  function ResultUnderRun(toks: seq<Token>, pos: nat, r: Result<Parsed<Expr>, LoxError>): Result<Parsed<Expr>, LoxError>
    requires WellFormed(toks) && pos < |toks|
  {
    if r.Failure? then Failure(r.error) else Success(Parsed(UnderRun(toks, pos, r.value.value), r.value.next))
  }

  /** e under the prefix operators ops, the first one outermost. */
  function Prefixed(ops: seq<Token>, e: Expr): Expr {
    if ops == [] then e else Unary(ops[0], Prefixed(ops[1..], e))
  }

  /**
   * The run is the tokens from pos up to RunEnd, each of them a prefix operator, and
   * UnderRun puts e under exactly those tokens.
   */
  lemma {:induction false} RunIsPrefixOperators(toks: seq<Token>, pos: nat, e: Expr)
    requires WellFormed(toks) && pos < |toks|
    ensures var k := RunEnd(toks, pos);
      && (forall j :: pos <= j < k ==> AnyCheck(toks, j, UnaryOperators))
      && UnderRun(toks, pos, e) == Prefixed(toks[pos..k], e)
    decreases |toks| - pos
  {
    var k := RunEnd(toks, pos);
    if AnyCheck(toks, pos, UnaryOperators) {
      CheckedIsNotLast(toks, pos, UnaryOperators);
      RunIsPrefixOperators(toks, pos + 1, e);
      assert toks[pos..k][1..] == toks[pos + 1..k];
    } else {
      assert toks[pos..k] == [];
    }
  }

  /**
   * `unary` takes the whole run of prefix operators, right-recursively, and then one
   * primary: the result is that primary under the operators, in source order.
   */
  lemma {:induction false} UnaryIsPrefixedPrimary(toks: seq<Token>, pos: nat)
    requires WellFormed(toks) && pos < |toks|
    ensures ParseUnary(toks, pos) == ResultUnderRun(toks, pos, ParsePrimary(toks, RunEnd(toks, pos)))
    decreases |toks| - pos
  {
    if AnyCheck(toks, pos, UnaryOperators) {
      CheckedIsNotLast(toks, pos, UnaryOperators);
      UnaryIsPrefixedPrimary(toks, pos + 1);
    }
  }

  // ---------------------------------------------------------------- statements

  /** Inside a block every item is a variable declaration, kept in source order after acc. */
  lemma {:induction false} BlockItemsAreDeclarations(toks: seq<Token>, pos: nat, acc: seq<Stmt>)
    requires WellFormed(toks) && pos < |toks|
    requires forall k :: 0 <= k < |acc| ==> acc[k].Var?
    ensures var r := BlockItems(toks, pos, acc);
            r.Success? ==> acc <= r.value.value && forall k :: 0 <= k < |r.value.value| ==> r.value.value[k].Var?
    decreases |toks| - pos
  {
    if !CheckAt(toks, pos, RIGHT_BRACE) && !AtEnd(toks, pos) {
      var p := ParseVarDeclaration(toks, pos);
      if p.Success? {
        assert p.value.value.Var?;
        BlockItemsAreDeclarations(toks, p.value.next, acc + [p.value.value]);
      }
    }
  }

  /** The last token read before `next` is of kind t. */
  predicate EndsOn(toks: seq<Token>, next: nat, t: TokenType) {
    0 < next <= |toks| && toks[next - 1].kind == t
  }

  /**
   * `print expression ;` after the keyword: the expression's error, or its tree when a `;`
   * follows it, or the missing-`;` error at the token found instead.
   */
  lemma PrintStmtShape(toks: seq<Token>, pos: nat)
    requires WellFormed(toks) && pos < |toks|
    ensures var e := ParseExpression(toks, pos);
            var r := ParsePrintStmt(toks, pos);
            if e.Failure? then r == Failure(e.error)
            else if toks[e.value.next].kind == SEMICOLON then r == Success(Parsed(Print(e.value.value), e.value.next + 1))
            else r == Failure(ParserError(toks[e.value.next], "Expect ';' after value"))
  {
    var e := ParseExpression(toks, pos);
    if e.Success? {
      PlainKind(toks[e.value.next].kind, SEMICOLON);
    }
  }

  /** `expression ;`: the same shape as a print statement, with its own message. */
  lemma ExpressionStmtShape(toks: seq<Token>, pos: nat)
    requires WellFormed(toks) && pos < |toks|
    ensures var e := ParseExpression(toks, pos);
            var r := ParseExpressionStmt(toks, pos);
            if e.Failure? then r == Failure(e.error)
            else if toks[e.value.next].kind == SEMICOLON then r == Success(Parsed(Expression(e.value.value), e.value.next + 1))
            else r == Failure(ParserError(toks[e.value.next], "Expect ';' after expression"))
  {
    var e := ParseExpression(toks, pos);
    if e.Success? {
      PlainKind(toks[e.value.next].kind, SEMICOLON);
    }
  }

  /**
   * A declaration names the identifier at pos, has an initializer exactly when `=`
   * follows the name, and ends on `;`; without a name it fails there.
   */
  lemma VarDeclarationShape(toks: seq<Token>, pos: nat)
    requires WellFormed(toks) && pos < |toks|
    ensures var r := ParseVarDeclaration(toks, pos);
            if !toks[pos].kind.IDENTIFIER? then r == Failure(ParserError(toks[pos], "Expected Identifier"))
            else
              pos + 1 < |toks| &&
              (r.Success? ==>
                var d := r.value.value;
                var next := r.value.next;
                d.Var? && d.name == toks[pos] && pos + 1 < next && toks[next - 1].kind == SEMICOLON &&
                if toks[pos + 1].kind == EQUAL then
                  pos + 2 < next && d.initializer.Some? &&
                  ParseExpression(toks, pos + 2) == Success(Parsed(d.initializer.value, next - 1))
                else
                  d.initializer == None && next == pos + 2)
  {
    if toks[pos].kind.IDENTIFIER? {
      assert pos + 1 < |toks|;
      SingleCheck(toks, pos + 1, EQUAL);
      PlainKind(toks[pos + 1].kind, EQUAL);
      var init := ParseInitializer(toks, pos + 1);
      if init.Success? {
        PlainKind(toks[init.value.next].kind, SEMICOLON);
      }
    }
  }

  /**
   * The exact outcome of a declaration whose name is present: the initializer's error,
   * or the declaration when a `;` follows, or the missing-`;` error at the token found
   * instead, as a print statement has.
   */
  lemma VarDeclarationOutcome(toks: seq<Token>, pos: nat)
    requires WellFormed(toks) && pos < |toks| && toks[pos].kind.IDENTIFIER?
    ensures pos + 1 < |toks|
    ensures var r := ParseVarDeclaration(toks, pos);
            var msg := "Expect ';' after variable declaration.";
            if toks[pos + 1].kind == EQUAL then
              pos + 2 < |toks| &&
              var e := ParseExpression(toks, pos + 2);
              if e.Failure? then r == Failure(e.error)
              else if toks[e.value.next].kind == SEMICOLON then
                r == Success(Parsed(Var(toks[pos], Some(e.value.value)), e.value.next + 1))
              else r == Failure(ParserError(toks[e.value.next], msg))
            else if toks[pos + 1].kind == SEMICOLON then r == Success(Parsed(Var(toks[pos], None), pos + 2))
            else r == Failure(ParserError(toks[pos + 1], msg))
  {
    NamedVarDeclaration(toks, pos);
    SingleCheck(toks, pos + 1, EQUAL);
    PlainKind(toks[pos + 1].kind, EQUAL);
    var init := ParseInitializer(toks, pos + 1);
    if init.Success? {
      PlainKind(toks[init.value.next].kind, SEMICOLON);
    }
  }

  /** A block's items end on the `}` that closes it. */
  lemma {:induction false} BlockEndsWithBrace(toks: seq<Token>, pos: nat, acc: seq<Stmt>)
    requires WellFormed(toks) && pos < |toks|
    ensures var r := BlockItems(toks, pos, acc);
            r.Success? ==> EndsOn(toks, r.value.next, RIGHT_BRACE)
    decreases |toks| - pos
  {
    if !CheckAt(toks, pos, RIGHT_BRACE) && !AtEnd(toks, pos) {
      var p := ParseVarDeclaration(toks, pos);
      if p.Success? {
        BlockEndsWithBrace(toks, p.value.next, acc + [p.value.value]);
      }
    } else {
      PlainKind(toks[pos].kind, RIGHT_BRACE);
    }
  }

  /** After `print`, the statement is a Print of the expression that follows, ending on `;`. */
  lemma PrintStatement(toks: seq<Token>, pos: nat)
    requires WellFormed(toks) && pos < |toks| && toks[pos].kind == PRINT
    ensures var r := ParseStatement(toks, pos);
            r.Success? ==>
              r.value.value.Print? && pos + 1 < r.value.next && toks[r.value.next - 1].kind == SEMICOLON &&
              ParseExpression(toks, pos + 1) == Success(Parsed(r.value.value.expression, r.value.next - 1))
  {
    SingleCheck(toks, pos, PRINT);
    PrintStmtShape(toks, pos + 1);
  }

  /** The items of a block are declarations, and the last token read is its `}`. */
  lemma ClosedDeclarations(toks: seq<Token>, pos: nat)
    requires WellFormed(toks) && pos < |toks|
    ensures var b := BlockItems(toks, pos, []);
            b.Success? ==>
              pos < b.value.next && EndsOn(toks, b.value.next, RIGHT_BRACE) &&
              forall k :: 0 <= k < |b.value.value| ==> b.value.value[k].Var?
  {
    BlockEndsWithBrace(toks, pos, []);
    BlockItemsAreDeclarations(toks, pos, []);
  }

  /** A statement that opens with `{` is the block of the items after it. */
  lemma {:induction false} BraceStatement(toks: seq<Token>, pos: nat)
    requires WellFormed(toks) && pos + 1 < |toks| && toks[pos].kind == LEFT_BRACE
    ensures var items := BlockItems(toks, pos + 1, []);
            ParseStatement(toks, pos) ==
              if items.Failure? then Failure(items.error)
              else Success(Parsed(Block(items.value.value), items.value.next))
  {
    AnyCheckIsSomeOption(toks, pos, [PRINT]);
    AnyCheckIsSomeOption(toks, pos, [LEFT_BRACE]);
    assert CheckAt(toks, pos, [LEFT_BRACE][0]);
  }

  /** After `{`, the statement is a Block of declarations, ending on `}`. */
  lemma BlockStatement(toks: seq<Token>, pos: nat)
    requires WellFormed(toks) && pos < |toks| && toks[pos].kind == LEFT_BRACE
    ensures var r := ParseStatement(toks, pos);
            r.Success? ==>
              r.value.value.Block? && pos + 1 < r.value.next && EndsOn(toks, r.value.next, RIGHT_BRACE) &&
              forall k :: 0 <= k < |r.value.value.statements| ==> r.value.value.statements[k].Var?
  {
    SingleCheck(toks, pos, LEFT_BRACE);
    CheckedIsNotLast(toks, pos, [LEFT_BRACE]);
    BraceStatement(toks, pos);
    ClosedDeclarations(toks, pos + 1);
  }

  /** Any other first token starts an Expression statement of the expression at pos, ending on `;`. */
  lemma ExpressionStatement(toks: seq<Token>, pos: nat)
    requires WellFormed(toks) && pos < |toks| && toks[pos].kind != PRINT && toks[pos].kind != LEFT_BRACE
    ensures var r := ParseStatement(toks, pos);
            r.Success? ==>
              r.value.value.Expression? && toks[r.value.next - 1].kind == SEMICOLON &&
              ParseExpression(toks, pos) == Success(Parsed(r.value.value.expression, r.value.next - 1))
  {
    SingleCheck(toks, pos, PRINT);
    PlainKind(toks[pos].kind, PRINT);
    SingleCheck(toks, pos, LEFT_BRACE);
    PlainKind(toks[pos].kind, LEFT_BRACE);
    ExpressionStmtShape(toks, pos);
  }

  /**
   * The first token decides the statement: `print` gives a Print of the expression after
   * it, `{` a Block of declarations closed by `}`, anything else an Expression statement;
   * Print and Expression statements end on `;`.
   */
  lemma StatementShape(toks: seq<Token>, pos: nat)
    requires WellFormed(toks) && pos < |toks|
    ensures var r := ParseStatement(toks, pos);
            r.Success? ==>
              var s := r.value.value;
              var next := r.value.next;
              pos < next &&
              if toks[pos].kind == PRINT then
                s.Print? && pos + 1 < next && toks[next - 1].kind == SEMICOLON &&
                ParseExpression(toks, pos + 1) == Success(Parsed(s.expression, next - 1))
              else if toks[pos].kind == LEFT_BRACE then
                s.Block? && pos + 1 < next && EndsOn(toks, next, RIGHT_BRACE) &&
                forall k :: 0 <= k < |s.statements| ==> s.statements[k].Var?
              else
                s.Expression? && toks[next - 1].kind == SEMICOLON &&
                ParseExpression(toks, pos) == Success(Parsed(s.expression, next - 1))
  {
    if toks[pos].kind == PRINT {
      PrintStatement(toks, pos);
    } else if toks[pos].kind == LEFT_BRACE {
      BlockStatement(toks, pos);
    } else {
      ExpressionStatement(toks, pos);
    }
  }

  /**
   * The statements ss are what the parser reads from pos: one ParseStatement after
   * another, each starting where the previous one stopped, with EOF right after the last.
   */
  ghost predicate ParsesAs(toks: seq<Token>, pos: nat, ss: seq<Stmt>)
    requires WellFormed(toks) && pos < |toks|
    decreases |ss|
  {
    if ss == [] then AtEnd(toks, pos)
    else
      !AtEnd(toks, pos) &&
      match ParseStatement(toks, pos)
      case Failure(_) => false
      case Success(p) => p.value == ss[0] && ParsesAs(toks, p.next, ss[1..])
  }

  /** One round of the `parse` loop. */
  lemma ProgramStep(toks: seq<Token>, pos: nat, acc: seq<Stmt>)
    requires WellFormed(toks) && pos < |toks| && !AtEnd(toks, pos)
    ensures var st := ParseStatement(toks, pos);
            ParseProgram(toks, pos, acc) ==
              if st.Failure? then Failure(st.error) else ParseProgram(toks, st.value.next, acc + [st.value.value])
  {
  }

  /** The statements already read only ever get more appended; errors do not depend on them. */
  lemma {:induction false} ProgramAccumulates(toks: seq<Token>, pos: nat, acc: seq<Stmt>)
    requires WellFormed(toks) && pos < |toks|
    ensures ParseProgram(toks, pos, acc) ==
            match ParseProgram(toks, pos, [])
            case Success(ss) => Success(acc + ss)
            case Failure(e) => Failure(e)
    decreases |toks| - pos
  {
    if AtEnd(toks, pos) {
      assert acc + [] == acc;
    } else {
      ProgramStep(toks, pos, acc);
      ProgramStep(toks, pos, []);
      var p := ParseStatement(toks, pos);
      if p.Success? {
        var v, n := p.value.value, p.value.next;
        ProgramAccumulates(toks, n, acc + [v]);
        ProgramAccumulates(toks, n, [v]);
        assert [] + [v] == [v];
        match ParseProgram(toks, n, [])
        case Success(ss) => assert acc + [v] + ss == acc + ([v] + ss);
        case Failure(_) =>
      }
    }
  }

  /**
   * `parse` yields exactly the statements that cover the input up to EOF, one statement
   * after the other; any other result means some statement on the way failed.
   */
  lemma {:induction false} ProgramParsesAs(toks: seq<Token>, pos: nat, ss: seq<Stmt>)
    requires WellFormed(toks) && pos < |toks|
    ensures ParseProgram(toks, pos, []) == Success(ss) <==> ParsesAs(toks, pos, ss)
    decreases |toks| - pos
  {
    if !AtEnd(toks, pos) {
      ProgramStep(toks, pos, []);
      var p := ParseStatement(toks, pos);
      if p.Success? {
        var v, n := p.value.value, p.value.next;
        ProgramAccumulates(toks, n, [v]);
        assert [] + [v] == [v];
        if ss != [] {
          ProgramParsesAs(toks, n, ss[1..]);
          match ParseProgram(toks, n, [])
          case Success(rest) =>
            assert ([v] + rest)[1..] == rest;
            if ParsesAs(toks, pos, ss) {
              assert [v] + ss[1..] == ss;
            }
          case Failure(_) =>
        }
      }
    }
  }
}
