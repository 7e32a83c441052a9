/** The cursor-driven scanner: a class whose methods move `idx` and append to `tokens`. */
module Scanning {
  import opened Wrappers
  import opened Tokens
  import opened Errors
  import opened ScanSpec

  class Scanner {
    const source: string
    var tokens: seq<Token>

    // Line and column, for error reports.
    var line: int
    var linePos: int

    // Offsets into the source: `idx` is the character being looked at, `startIdx` the
    // first character of the current token, `endIdx` the last character of the source.
    var idx: nat
    var startIdx: nat
    var endIdx: nat

    /** The counters always agree with the offset `idx` has reached. */
    ghost predicate Valid()
      reads this
    {
      && endIdx == (if |source| == 0 then 0 else |source| - 1)
      && (idx == 0 || idx < |source|)
      && startIdx <= idx
      && line == LineAt(source, idx)
      && linePos == PosAt(source, idx)
    }

    constructor (input: string)
      ensures Valid()
      ensures source == input && tokens == []
      ensures idx == 0 && startIdx == 0 && line == 1 && linePos == 1
    {
      source := input;
      tokens := [];
      line, linePos := 1, 1;
      idx, startIdx := 0, 0;
      if |input| == 0 {
        endIdx := 0;
      } else {
        endIdx := |input| - 1;
      }
    }

    method CanReadMore() returns (more: bool)
      requires Valid()
      ensures more <==> PeekAt(source, idx).Some?
    {
      more := idx < endIdx;
    }

    method FoundChar(c: char) returns (found: bool)
      requires Valid()
      ensures found <==> PeekAt(source, idx) in {None, Some(c)}
    {
      var next := Peek();
      found := next == Some(c) || next == None;
    }

    /** Steps onto the next character, if there is one, counting newlines. */
    method Advance() returns (moved: bool)
      requires Valid()
      modifies this`idx, this`line, this`linePos
      ensures Valid()
      ensures moved <==> old(idx) + 1 < |source|
      ensures idx == if moved then old(idx) + 1 else old(idx)
    {
      var more := CanReadMore();
      if more {
        idx := idx + 1;
        linePos := linePos + 1;
        if source[idx] == '\n' {
          line := line + 1;
          linePos := 0;
        }
        moved := true;
      } else {
        moved := false;
      }
    }

    method Peek() returns (next: Option<char>)
      requires Valid()
      ensures next == PeekAt(source, idx)
    {
      var more := CanReadMore();
      if more {
        next := Some(source[idx + 1]);
      } else {
        next := None;
      }
    }

    method PeekNext() returns (next: Option<char>)
      requires Valid()
      ensures next == PeekNextAt(source, idx)
    {
      var more := CanReadMore();
      if more && idx + 1 < endIdx {
        return Some(source[idx + 2]);
      }
      return None;
    }

    /** Steps onto the next character exactly when it is `expected`. */
    method Match(expected: char) returns (isMatch: bool)
      requires Valid()
      modifies this`idx, this`line, this`linePos
      ensures Valid()
      ensures isMatch <==> PeekAt(source, old(idx)) == Some(expected)
      ensures idx == if isMatch then old(idx) + 1 else old(idx)
    {
      var next := Peek();
      isMatch := next == Some(expected);
      if isMatch {
        var _ := Advance();
      }
    }

    /** Appends a token whose lexeme runs from `startIdx` through `idx`. */
    method AddToken(kind: TokenType)
      requires Valid() && idx < |source|
      modifies this`tokens
      ensures tokens == old(tokens) + [Token(kind, source[startIdx..idx + 1], line)]
    {
      var text := source[startIdx..idx + 1];
      tokens := tokens + [Token(kind, text, line)];
    }

    method ScanUntil(c: char, stopBefore: bool)
      requires Valid() && idx < |source|
      modifies this`idx, this`line, this`linePos
      ensures Valid()
      ensures idx == UntilEnd(source, old(idx), c, stopBefore)
    {
      var found := FoundChar(c);
      while !found
        invariant Valid() && idx < |source|
        invariant UntilStop(source, idx, c) == UntilStop(source, old(idx), c)
        invariant found <==> PeekAt(source, idx) in {None, Some(c)}
        decreases |source| - idx
      {
        var _ := Advance();
        found := FoundChar(c);
      }
      if !stopBefore {
        var _ := Advance();
      }
    }

    method ScanString() returns (r: Outcome<ScanFailure>)
      requires Valid() && idx < |source| && startIdx == idx
      modifies this`idx, this`line, this`linePos, this`tokens
      ensures Valid() && startIdx == old(startIdx)
      ensures match StringStep(source, old(idx))
        case Failure(f) => r == Fail(f)
        case Success(st) => r == Pass && idx == st.last && tokens == old(tokens) + Emitted(st)
    {
      ScanUntil('"', false);
      if source[idx] != '"' {
        return Fail(Thrown(ScannerError(line, linePos, "Unterminated string")));
      }
      if idx < startIdx + 2 {
        // Swift traps on the range `index(after: startIdx)...index(before: idx)`.
        return Fail(Trapped(idx));
      }
      var litString := source[startIdx + 1..idx];
      AddToken(STRING(litString));
      return Pass;
    }

    /** Steps over the digits that follow `idx`. */
    method ScanDigits()
      requires Valid() && idx < |source|
      modifies this`idx, this`line, this`linePos
      ensures Valid()
      ensures idx == DigitsEnd(source, old(idx))
    {
      var next := Peek();
      while IsDigit(OrBlank(next))
        invariant Valid() && idx < |source|
        invariant DigitsEnd(source, idx) == DigitsEnd(source, old(idx))
        invariant next == PeekAt(source, idx)
        decreases |source| - idx
      {
        var _ := Advance();
        next := Peek();
      }
    }

    method ScanNumber()
      requires Valid() && idx < |source| && startIdx == idx
      modifies this`idx, this`line, this`linePos, this`tokens
      ensures Valid() && startIdx == old(startIdx)
      ensures idx == NumberEnd(source, old(idx))
      ensures tokens == old(tokens) + [TokenAt(source, old(idx), idx, NUMBER(source[old(idx)..idx + 1]))]
    {
      NumberEndSteps(source, idx);
      ScanDigits();
      var next := Peek();
      var nextNext := PeekNext();
      if next == Some('.') && IsDigit(OrBlank(nextNext)) {
        var _ := Advance();
      }
      ScanDigits();
      var numberLiteral := source[startIdx..idx + 1];
      AddToken(NUMBER(numberLiteral));
    }

    method ScanIdentifier()
      requires Valid() && idx < |source| && startIdx == idx
      modifies this`idx, this`line, this`linePos, this`tokens
      ensures Valid() && startIdx == old(startIdx)
      ensures idx == IdentifierEnd(source, old(idx))
      ensures tokens == old(tokens) + [TokenAt(source, old(idx), idx, IdentifierKind(source[old(idx)..idx + 1]))]
    {
      var next := Peek();
      while IsIdentifierInner(OrBlank(next))
        invariant Valid() && idx < |source|
        invariant IdentifierEnd(source, idx) == IdentifierEnd(source, old(idx))
        invariant tokens == old(tokens) && startIdx == old(startIdx)
        invariant next == PeekAt(source, idx)
        decreases |source| - idx
      {
        var _ := Advance();
        next := Peek();
      }
      var text := source[startIdx..idx + 1];
      AddToken(IdentifierKind(text));
    }

    /** `!`, `=`, `<` or `>`: takes a following `=` greedily. */
    method ScanOperator(single: TokenType, double: TokenType)
      requires Valid() && idx < |source| && startIdx == idx
      modifies this`idx, this`line, this`linePos, this`tokens
      ensures Valid() && startIdx == old(startIdx)
      ensures var st := OperatorStep(source, old(idx), single, double);
        idx == st.last && tokens == old(tokens) + Emitted(st)
    {
      var isMatch := Match('=');
      if isMatch {
        AddToken(double);
      } else {
        AddToken(single);
      }
    }

    method ScanToken() returns (r: Outcome<ScanFailure>)
      requires Valid() && idx < |source| && startIdx == idx
      modifies this`idx, this`line, this`linePos, this`tokens
      ensures Valid() && startIdx == old(startIdx)
      ensures match TokenStep(source, old(idx))
        case Failure(f) => r == Fail(f)
        case Success(st) => r == Pass && idx == st.last && tokens == old(tokens) + Emitted(st)
    {
      var c := source[idx];
      r := Pass;
      if SingleCharKind(c).Some? {
        AddToken(SingleCharKind(c).value);
      } else if c == '!' {
        ScanOperator(BANG, BANG_EQUAL);
      } else if c == '=' {
        ScanOperator(EQUAL, EQUAL_EQUAL);
      } else if c == '<' {
        ScanOperator(LESS, LESS_EQUAL);
      } else if c == '>' {
        ScanOperator(GREATER, GREATER_EQUAL);
      } else if c == '/' {
        var isComment := Match('/');
        if isComment {
          ScanUntil('\n', false);
        } else {
          AddToken(SLASH);
        }
      } else if c == '"' {
        r := ScanString();
      } else if c == '\r' || c == '\n' || c == ' ' {
      } else if IsDigit(c) {
        ScanNumber();
      } else if IsIdentifierStart(c) {
        ScanIdentifier();
      } else {
        r := Fail(Thrown(ScannerError(line, linePos, "Invalid character " + [c])));
      }
    }

    /** Scans the rest of the source and appends the EOF token. */
    method ScanTokens() returns (r: Result<seq<Token>, ScanFailure>)
      requires Valid()
      modifies this
      ensures r == ScanFrom(source, old(idx), old(tokens))
      ensures r.Success? ==> tokens == r.value
    {
      if source != "" {
        ghost var goal := ScanLoop(source, idx, tokens);
        var more := true;
        while more
          invariant Valid() && idx < |source|
          invariant more ==> goal == ScanLoop(source, idx, tokens)
          invariant !more ==> goal == Success(tokens + [EofToken(line)])
          decreases |source| - idx + (if more then 1 else 0)
        {
          startIdx := idx;
          ghost var before, sofar := idx, tokens;
          ScanLoopUnfolds(source, idx, tokens);
          var outcome := ScanToken();
          if outcome.Fail? {
            return Failure(outcome.error);
          }
          ghost var st := TokenStep(source, before).value;
          assert idx == st.last && tokens == sofar + Emitted(st);
          more := Advance();
        }
      }
      tokens := tokens + [EofToken(line)];
      return Success(tokens);
    }
  }

  /** `Scanner(source: s).scanTokens()` */
  method ScanSource(s: string) returns (r: Result<seq<Token>, ScanFailure>)
    ensures r == Scan(s)
  {
    var scanner := new Scanner(s);
    r := scanner.ScanTokens();
  }
}
