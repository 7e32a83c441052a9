/** Expression and statement nodes, and the parenthesised prefix printer. */
module Ast {
  import opened Wrappers
  import opened Tokens

  datatype Expr =
    | Binary(left: Expr, op: Token, right: Expr)
    | Grouping(expression: Expr)
    | Literal(value: Token)
    | Unary(op: Token, right: Expr)
    | Variable(name: Token)

  datatype Stmt =
    | Print(expression: Expr)
    | Expression(expression: Expr)
    | Var(name: Token, initializer: Option<Expr>)
    | Block(statements: seq<Stmt>)

  /** The rendered operands, each preceded by one space. */
  function Spaced(parts: seq<string>): string {
    if parts == [] then "" else " " + parts[0] + Spaced(parts[1..])
  }

  /** `parenthesize(name, exprs)` once the operands are rendered: `(name e1 e2 ...)`. */
  function Parenthesized(name: string, parts: seq<string>): string {
    "(" + name + Spaced(parts) + ")"
  }

  /** `display()`: every node but a literal (and a variable) goes through parenthesize. */
  function Display(e: Expr): string {
    match e
    case Binary(left, op, right) => Parenthesized(op.lexeme, [Display(left), Display(right)])
    case Grouping(inner) => Parenthesized("group", [Display(inner)])
    case Literal(value) => value.lexeme
    case Unary(op, right) => Parenthesized(op.lexeme, [Display(right)])
    case Variable(name) => name.lexeme
  }

  /** The renderings of es, in order. */
  function DisplayAll(es: seq<Expr>): (parts: seq<string>)
    ensures |parts| == |es|
  {
    if es == [] then [] else [Display(es[0])] + DisplayAll(es[1..])
  }

  /** The k-th rendering is the rendering of the k-th expression. */
  lemma {:induction false} DisplayAllAt(es: seq<Expr>, k: nat)
    requires k < |es|
    ensures DisplayAll(es)[k] == Display(es[k])
  {
    if k > 0 {
      DisplayAllAt(es[1..], k - 1);
    }
  }

  lemma {:induction false} DisplayAllAppend(es: seq<Expr>, e: Expr)
    ensures DisplayAll(es + [e]) == DisplayAll(es) + [Display(e)]
  {
    if es == [] {
      assert [] + [e] == [e];
    } else {
      assert (es + [e])[1..] == es[1..] + [e];
      DisplayAllAppend(es[1..], e);
    }
  }

  lemma {:induction false} SpacedAppend(parts: seq<string>, p: string)
    ensures Spaced(parts + [p]) == Spaced(parts) + " " + p
  {
    if parts == [] {
      assert [] + [p] == [p];
    } else {
      assert (parts + [p])[1..] == parts[1..] + [p];
      SpacedAppend(parts[1..], p);
    }
  }

  /**
   * `parenthesize(name, exprs)`: `(` and the name, then a space and the rendering of
   * each expression in order, then `)`.
   */
  method Parenthesize(name: string, exprs: seq<Expr>) returns (str: string)
    ensures str == Parenthesized(name, DisplayAll(exprs))
  {
    str := "(" + name;
    for k := 0 to |exprs|
      invariant str == "(" + name + Spaced(DisplayAll(exprs[..k]))
    {
      assert exprs[..k + 1] == exprs[..k] + [exprs[k]];
      DisplayAllAppend(exprs[..k], exprs[k]);
      SpacedAppend(DisplayAll(exprs[..k]), Display(exprs[k]));
      str := str + " " + Display(exprs[k]);
    }
    assert exprs[..|exprs|] == exprs;
    str := str + ")";
  }

  /** With no expressions, parenthesize gives just the name in parentheses. */
  lemma ParenthesizedNothing(name: string)
    ensures Parenthesized(name, []) == "(" + name + ")"
  {
  }

  /** One rendered operand is preceded by one space. */
  lemma SpacedOne(a: string)
    ensures Spaced([a]) == " " + a
  {
    assert [a][1..] == [];
  }

  lemma SpacedTwo(a: string, b: string)
    ensures Spaced([a, b]) == " " + a + " " + b
  {
    assert [a, b][1..] == [b];
    SpacedOne(b);
  }

  /** A literal renders as exactly its token's lexeme. */
  lemma DisplayLiteral(value: Token)
    ensures Display(Literal(value)) == value.lexeme
  {
  }

  /** A grouping renders as `(group inner)`. */
  lemma DisplayGrouping(inner: Expr)
    ensures Display(Grouping(inner)) == "(group " + Display(inner) + ")"
  {
    SpacedOne(Display(inner));
    assert "(" + "group" + " " == "(group ";
    calc {
      Display(Grouping(inner));
      "(" + "group" + (" " + Display(inner)) + ")";
      ("(" + "group" + " ") + Display(inner) + ")";
    }
  }

  /** A unary renders as `(op operand)`. */
  lemma DisplayUnary(op: Token, right: Expr)
    ensures Display(Unary(op, right)) == "(" + op.lexeme + " " + Display(right) + ")"
  {
    SpacedOne(Display(right));
  }

  /** A binary renders as `(op left right)`, the left operand first. */
  lemma DisplayBinary(left: Expr, op: Token, right: Expr)
    ensures Display(Binary(left, op, right)) == "(" + op.lexeme + " " + Display(left) + " " + Display(right) + ")"
  {
    var p, l, r := "(" + op.lexeme, Display(left), Display(right);
    SpacedTwo(l, r);
    assert p + (" " + l + " " + r) == p + (" " + l + " ") + r;
    assert p + (" " + l + " ") == p + (" " + l) + " ";
    assert p + (" " + l) == p + " " + l;
  }

  /** Every node other than a literal or variable renders starting with `(` and ending with `)`. */
  lemma DisplayIsParenthesised(e: Expr)
    requires !e.Literal? && !e.Variable?
    ensures |Display(e)| >= 2 && Display(e)[0] == '(' && Display(e)[|Display(e)| - 1] == ')'
  {
    match e
    case Binary(left, op, right) => DisplayBinary(left, op, right);
    case Grouping(inner) => DisplayGrouping(inner);
    case Unary(op, right) => DisplayUnary(op, right);
  }

  /** The pieces of the rendering of `-123 * (45.67)`, joined. */
  lemma ExpectedPieces()
    ensures "(" + "-" + " " + "123" + ")" == "(- 123)"
    ensures "(group " + "45.67" + ")" == "(group 45.67)"
    ensures "(" + "*" + " " + "(- 123)" + " " + "(group 45.67)" + ")" == "(* (- 123) (group 45.67))"
  {
  }

  /**
   * The printer echoes a literal's lexeme, so the tree of `-123 * (45.67)` renders with
   * `123`, not the `123.0` that Sources/UnitTests/ExprTests.swift expects.
   */
  lemma DisplayEchoesLexemes()
    ensures var e := Binary(
        Unary(Token(MINUS, "-", 0), Literal(Token(NUMBER("123"), "123", 0))),
        Token(STAR, "*", 0),
        Grouping(Literal(Token(NUMBER("45.67"), "45.67", 0))));
      Display(e) == "(* (- 123) (group 45.67))" && Display(e) != "(* (- 123.0) (group 45.67))"
  {
    var e := Binary(
        Unary(Token(MINUS, "-", 0), Literal(Token(NUMBER("123"), "123", 0))),
        Token(STAR, "*", 0),
        Grouping(Literal(Token(NUMBER("45.67"), "45.67", 0))));
    DisplayBinary(e.left, e.op, e.right);
    DisplayUnary(e.left.op, e.left.right);
    DisplayGrouping(e.right.expression);
    ExpectedPieces();
    assert |"(* (- 123) (group 45.67))"| != |"(* (- 123.0) (group 45.67))"|;
  }
}
