/** The scanner's and parser's errors and their one-line report. */
module Errors {
  import opened Wrappers
  import opened Tokens

  datatype LoxError =
    | ScannerError(line: int, pos: int, message: string)
    | ParserError(token: Token, message: string)

  function DigitChar(d: nat): (c: char)
    requires d < 10
    ensures IsDigit(c) && DigitValue(c) == d
  {
    ('0' as int + d) as char
  }

  /** Decimal text of a natural number, as string interpolation writes it. */
  function NatText(n: nat): (s: string)
    ensures |s| > 0
    ensures forall k :: 0 <= k < |s| ==> IsDigit(s[k])
  {
    if n < 10 then [DigitChar(n)] else NatText(n / 10) + [DigitChar(n % 10)]
  }

  /** Decimal text of an integer, with a leading '-' when it is negative. */
  function IntText(i: int): string {
    if i < 0 then "-" + NatText(-i) else NatText(i)
  }

  /** The value of a run of decimal digits. */
  function DigitsValue(s: string): nat
    requires forall k :: 0 <= k < |s| ==> IsDigit(s[k])
  {
    if s == [] then 0 else 10 * DigitsValue(s[..|s| - 1]) + DigitValue(s[|s| - 1])
  }

  function DigitValue(c: char): nat
    requires IsDigit(c)
  {
    (c as int) - ('0' as int)
  }

  /** The longest prefix of s made of digits. */
  function DigitPrefix(s: string): (p: string)
    ensures p <= s
    ensures forall k :: 0 <= k < |p| ==> IsDigit(p[k])
    ensures |p| < |s| ==> !IsDigit(s[|p|])
  {
    if s != [] && IsDigit(s[0]) then [s[0]] + DigitPrefix(s[1..]) else []
  }

  function Report(e: LoxError): string {
    match e
    case ScannerError(line, _, message) =>
      "[line " + IntText(line) + "] Error: " + message
    case ParserError(token, message) =>
      if token.kind == EOF then "[line " + IntText(token.line) + ", at end " + message + "]"
      else "[line " + IntText(token.line) + ", at " + message + "]"
  }

  /** The line a report names, read back from its text: the digits after "[line ". */
  function ReportedLine(text: string): Option<nat> {
    if |text| >= 6 && text[..6] == "[line " && DigitPrefix(text[6..]) != [] then
      Some(DigitsValue(DigitPrefix(text[6..])))
    else None
  }

  /** Reading back the decimal text of n gives n. */
  lemma {:induction false} NatTextRoundTrip(n: nat)
    ensures DigitsValue(NatText(n)) == n
  {
    if n >= 10 {
      NatTextRoundTrip(n / 10);
      var s := NatText(n);
      assert s[..|s| - 1] == NatText(n / 10);
    }
  }

  /** The digits of n followed by a non-digit are read back as exactly n's digits. */
  lemma {:induction false} DigitPrefixOfDigits(d: string, rest: string)
    requires forall k :: 0 <= k < |d| ==> IsDigit(d[k])
    requires rest != [] && !IsDigit(rest[0])
    ensures DigitPrefix(d + rest) == d
  {
    if d != [] {
      assert (d + rest)[1..] == d[1..] + rest;
      DigitPrefixOfDigits(d[1..], rest);
    } else {
      assert d + rest == rest;
    }
  }

  /** The position field of a scanner error never reaches the report. */
  lemma ReportIgnoresPosition(line: int, p1: int, p2: int, m: string)
    ensures Report(ScannerError(line, p1, m)) == Report(ScannerError(line, p2, m))
  {
  }

  /**
   * A parser error's report depends on its token only through the token's line and
   * whether it is EOF: the lexeme and the rest of the kind are left out.
   */
  lemma ReportIgnoresLexeme(t1: Token, t2: Token, m: string)
    requires t1.line == t2.line && (t1.kind == EOF <==> t2.kind == EOF)
    ensures Report(ParserError(t1, m)) == Report(ParserError(t2, m))
  {
  }

  /**
   * A line number's digits cannot run on into what follows them when that starts with a
   * non-digit, so two such texts that differ right after the digits differ.
   */
  lemma NatTextThenDiffer(a: nat, b: nat, x: string, y: string)
    requires x != [] && y != [] && !IsDigit(x[0]) && !IsDigit(y[0]) && x[0] != y[0]
    ensures NatText(a) + x != NatText(b) + y
  {
    DigitPrefixOfDigits(NatText(a), x);
    DigitPrefixOfDigits(NatText(b), y);
    if NatText(a) == NatText(b) {
      var d := NatText(a);
      assert (d + x)[|d|] == x[0];
      assert (d + y)[|d|] == y[0];
    }
  }

  /** The same for an integer's text, with its optional leading '-'. */
  lemma IntTextThenDiffer(a: int, b: int, x: string, y: string)
    requires x != [] && y != [] && !IsDigit(x[0]) && !IsDigit(y[0]) && x[0] != y[0]
    ensures IntText(a) + x != IntText(b) + y
  {
    if a < 0 && b < 0 {
      NatTextThenDiffer(-a, -b, x, y);
      assert ("-" + NatText(-a) + x)[1..] == NatText(-a) + x;
      assert ("-" + NatText(-b) + y)[1..] == NatText(-b) + y;
    } else if a < 0 {
      assert (IntText(a) + x)[0] == '-';
      assert (IntText(b) + y)[0] == NatText(b)[0];
    } else if b < 0 {
      assert (IntText(a) + x)[0] == NatText(a)[0];
      assert (IntText(b) + y)[0] == '-';
    } else {
      NatTextThenDiffer(a, b, x, y);
    }
  }

  /**
   * A scanner error's report never reads like a parser error's: after the line number the
   * one has `]` and the other has `,`.
   */
  lemma ScannerReportIsNotParserReport(e1: LoxError, e2: LoxError)
    requires e1.ScannerError? && e2.ParserError?
    ensures Report(e1) != Report(e2)
  {
    var x := "] Error: " + e1.message;
    var y := if e2.token.kind == EOF then ", at end " + e2.message + "]" else ", at " + e2.message + "]";
    IntTextThenDiffer(e1.line, e2.token.line, x, y);
    assert Report(e1) == "[line " + (IntText(e1.line) + x);
    assert Report(e2) == "[line " + (IntText(e2.token.line) + y);
    assert Report(e1)[6..] == IntText(e1.line) + x;
    assert Report(e2)[6..] == IntText(e2.token.line) + y;
  }

  /**
   * A parser error at EOF is not told apart from another parser error on the same line
   * whose message starts with "end ": both read `[line L, at end ...]`.
   */
  lemma AtEndReportIsAmbiguous(t: Token, eof: Token, m: string)
    requires t.kind != EOF && eof.kind == EOF && t.line == eof.line
    ensures Report(ParserError(t, "end " + m)) == Report(ParserError(eof, m))
  {
    assert "[line " + IntText(t.line) + ", at " + ("end " + m) + "]"
        == "[line " + IntText(t.line) + ", at end " + m + "]";
  }

  /** A text made of "[line ", the digits of n and a non-digit rest reads back as n. */
  lemma ReportedLineOf(n: nat, rest: string)
    requires rest != [] && !IsDigit(rest[0])
    ensures ReportedLine("[line " + NatText(n) + rest) == Some(n)
  {
    var text := "[line " + NatText(n) + rest;
    assert text[..6] == "[line ";
    assert text[6..] == NatText(n) + rest;
    DigitPrefixOfDigits(NatText(n), rest);
    NatTextRoundTrip(n);
  }

  /** The line number of any error with a non-negative line can be read back from its report. */
  lemma ReportLineRoundTrip(e: LoxError)
    requires (if e.ScannerError? then e.line else e.token.line) >= 0
    ensures ReportedLine(Report(e)) == Some(if e.ScannerError? then e.line else e.token.line)
  {
    match e
    case ScannerError(line, _, message) =>
      assert Report(e) == "[line " + NatText(line) + ("] Error: " + message);
      ReportedLineOf(line, "] Error: " + message);
    case ParserError(token, message) =>
      if token.kind == EOF {
        assert Report(e) == "[line " + NatText(token.line) + (", at end " + message + "]");
        ReportedLineOf(token.line, ", at end " + message + "]");
      } else {
        assert Report(e) == "[line " + NatText(token.line) + (", at " + message + "]");
        ReportedLineOf(token.line, ", at " + message + "]");
      }
  }
}
