/** What the scanner guarantees, proved about the functions the Scanner class is verified against. */
module ScanProperties {
  import opened Wrappers
  import opened Tokens
  import opened Errors
  import opened ScanSpec

  predicate NoEof(ts: seq<Token>) {
    forall k :: 0 <= k < |ts| ==> ts[k].kind != EOF
  }

  predicate LinesSorted(ts: seq<Token>) {
    forall j, k :: 0 <= j < k < |ts| ==> ts[j].line <= ts[k].line
  }

  predicate AllDigits(t: string) {
    forall k :: 0 <= k < |t| ==> IsDigit(t[k])
  }

  /** Digits, optionally followed by one dot and at least one more digit. */
  predicate IsNumberLexeme(t: string) {
    || (|t| > 0 && AllDigits(t))
    || (exists d :: 0 < d < |t| - 1 && t[d] == '.' && AllDigits(t[..d]) && AllDigits(t[d + 1..]))
  }

  /** The characters that start a token or are skipped; every other character is an error. */
  predicate IsRecognised(c: char) {
    c in "(){},.-+;*!=<>/\" \r\n" || IsDigit(c) || IsIdentifierStart(c)
  }

  function Newlines(t: string): nat {
    if t == [] then 0 else Newlines(t[..|t| - 1]) + (if t[|t| - 1] == '\n' then 1 else 0)
  }

  // ---------------------------------------------------------------- line counting

  /** The line at offset i is one more than the newlines stepped onto, that is, those at offsets 1 to i. */
  lemma {:induction false} LineAtCountsNewlines(s: string, i: nat)
    requires i < |s|
    ensures LineAt(s, i) == 1 + Newlines(s[1..i + 1])
  {
    if i > 0 {
      LineAtCountsNewlines(s, i - 1);
      assert s[1..i + 1][..i - 1] == s[1..i];
    }
  }

  lemma {:induction false} LineAtMonotone(s: string, i: nat, j: nat)
    requires i <= j && (j == 0 || j < |s|)
    ensures 1 <= LineAt(s, i) <= LineAt(s, j)
    decreases j
  {
    if j > i {
      LineAtMonotone(s, i, j - 1);
    } else if i > 0 {
      LineAtMonotone(s, 0, i - 1);
    }
  }

  // ---------------------------------------------------------------- runs

  /** `while !foundChar(c)` stops at m exactly when no c follows i up to m and c (or the end) follows m. */
  lemma {:induction false} UntilStopIsFirst(s: string, i: nat, c: char, m: nat)
    requires i <= m < |s|
    requires forall j :: i < j <= m ==> s[j] != c
    requires m + 1 == |s| || s[m + 1] == c
    ensures UntilStop(s, i, c) == m
    decreases m - i
  {
    if i < m {
      UntilStopIsFirst(s, i + 1, c, m);
    }
  }

  lemma {:induction false} UntilStopSkips(s: string, i: nat, c: char)
    requires i < |s|
    ensures forall j :: i < j <= UntilStop(s, i, c) ==> s[j] != c
    decreases |s| - i
  {
    if i + 1 < |s| && s[i + 1] != c {
      UntilStopSkips(s, i + 1, c);
    }
  }

  lemma {:induction false} DigitsEndRun(s: string, i: nat)
    requires i < |s|
    ensures AllDigits(s[i + 1..DigitsEnd(s, i) + 1])
    decreases |s| - i
  {
    if IsDigit(OrBlank(PeekAt(s, i))) {
      DigitsEndRun(s, i + 1);
      assert s[i + 1..DigitsEnd(s, i) + 1] == [s[i + 1]] + s[i + 2..DigitsEnd(s, i) + 1];
    }
  }

  lemma {:induction false} IdentifierEndRun(s: string, i: nat)
    requires i < |s|
    ensures forall j :: i < j <= IdentifierEnd(s, i) ==> IsIdentifierInner(s[j])
    decreases |s| - i
  {
    if IsIdentifierInner(OrBlank(PeekAt(s, i))) {
      IdentifierEndRun(s, i + 1);
    }
  }

  // ---------------------------------------------------------------- one token

  /** `scanToken` never produces EOF, and every token it produces has a non-empty lexeme. */
  lemma TokenStepNeverEof(s: string, i: nat)
    requires i < |s|
    ensures TokenStep(s, i).Success? && TokenStep(s, i).value.emitted.Some? ==>
      TokenStep(s, i).value.emitted.value.kind != EOF &&
      |TokenStep(s, i).value.emitted.value.lexeme| > 0
  {
  }

  /**
   * `!`, `=`, `<` and `>` take a following `=`, giving the two-character kind and
   * lexeme; otherwise they give the one-character kind and lexeme.
   */
  lemma OperatorsAreGreedy(s: string, i: nat)
    requires i < |s| && s[i] in "!=<>"
    ensures TokenStep(s, i).Success?
    ensures var st := TokenStep(s, i).value;
      st.emitted.Some? &&
      if i + 1 < |s| && s[i + 1] == '=' then
        st.last == i + 1 && st.emitted.value.lexeme == [s[i], '='] &&
        st.emitted.value.kind in {BANG_EQUAL, EQUAL_EQUAL, LESS_EQUAL, GREATER_EQUAL}
      else
        st.last == i && st.emitted.value.lexeme == [s[i]] &&
        st.emitted.value.kind in {BANG, EQUAL, LESS, GREATER}
  {
    assert s[i..i + 1] == [s[i]];
    if i + 1 < |s| {
      assert s[i..i + 2] == [s[i], s[i + 1]];
    }
  }

  /** `//` discards everything through the next newline (or to the end) and emits nothing. */
  lemma LineComment(s: string, i: nat)
    requires i + 1 < |s| && s[i] == '/' && s[i + 1] == '/'
    ensures TokenStep(s, i).Success? && TokenStep(s, i).value.emitted == None
    ensures var k := TokenStep(s, i).value.last;
      && i + 1 <= k < |s|
      && (forall j :: i + 2 <= j < k ==> s[j] != '\n')
      && ((s[k] == '\n' && k >= i + 2) || (k == |s| - 1 && forall j :: i + 2 <= j < |s| ==> s[j] != '\n'))
  {
    UntilStopSkips(s, i + 1, '\n');
  }

  /** A `/` not followed by another `/` is SLASH. */
  lemma LoneSlash(s: string, i: nat)
    requires i < |s| && s[i] == '/' && !(i + 1 < |s| && s[i + 1] == '/')
    ensures TokenStep(s, i) == Success(Step(Some(Token(SLASH, "/", LineAt(s, i))), i))
  {
    assert s[i..i + 1] == [s[i]];
  }

  /** A digit at i starts a NUMBER token that runs to NumberEnd and carries its own lexeme. */
  lemma NumberStep(s: string, i: nat)
    requires i < |s| && IsDigit(s[i])
    ensures TokenStep(s, i) == Success(Step(Some(TokenAt(s, i, NumberEnd(s, i), NUMBER(s[i..NumberEnd(s, i) + 1]))), NumberEnd(s, i)))
    ensures TokenAt(s, i, NumberEnd(s, i), NUMBER(s[i..NumberEnd(s, i) + 1])).lexeme == s[i..NumberEnd(s, i) + 1]
  {
  }

  /**
   * A number lexeme is a maximal run of digits with at most one dot, and the dot is
   * taken only when a digit follows it.
   */
  lemma NumberIsMaximal(s: string, i: nat)
    requires i < |s| && IsDigit(s[i])
    ensures var k := NumberEnd(s, i);
      var lexeme := s[i..k + 1];
      && IsNumberLexeme(lexeme)
      && (k + 1 < |s| ==> !IsDigit(s[k + 1]))
      && ('.' !in lexeme && k + 2 < |s| && s[k + 1] == '.' ==> !IsDigit(s[k + 2]))
  {
    var j := DigitsEnd(s, i);
    LeadingDigits(s, i);
    if PeekAt(s, j) == Some('.') && IsDigit(OrBlank(PeekNextAt(s, j))) {
      DigitsEndRun(s, j + 1);
      DottedLexeme(s, i, j, NumberEnd(s, i));
    } else {
      NoDotInDigits(s[i..j + 1]);
    }
  }

  /** The digits a number starts with, its first character included. */
  lemma LeadingDigits(s: string, i: nat)
    requires i < |s| && IsDigit(s[i])
    ensures AllDigits(s[i..DigitsEnd(s, i) + 1])
  {
    var j := DigitsEnd(s, i);
    DigitsEndRun(s, i);
    assert s[i..j + 1] == [s[i]] + s[i + 1..j + 1];
  }

  lemma NoDotInDigits(t: string)
    requires AllDigits(t)
    ensures '.' !in t
  {
    forall m | 0 <= m < |t| ensures t[m] != '.' {
      assert IsDigit(t[m]);
    }
  }

  /** Digits, a dot, then digits that start right after it, form a number lexeme with a dot. */
  lemma DottedLexeme(s: string, i: nat, j: nat, k: nat)
    requires i <= j && j + 2 <= k < |s| && s[j + 1] == '.' && IsDigit(s[j + 2])
    requires AllDigits(s[i..j + 1]) && AllDigits(s[j + 2..k + 1])
    ensures IsNumberLexeme(s[i..k + 1]) && '.' in s[i..k + 1]
  {
    var lexeme := s[i..k + 1];
    var d := j + 1 - i;
    assert lexeme[..d] == s[i..j + 1];
    assert lexeme[d + 1..] == s[j + 2..k + 1];
    assert 0 < d < |lexeme| - 1 && lexeme[d] == '.';
  }

  /**
   * An identifier is a maximal run of letters, digits and `_`; it is a keyword exactly
   * when its text is in the table, and otherwise IDENTIFIER carrying that text.
   */
  lemma IdentifierLiteral(s: string, i: nat)
    requires i < |s| && IsIdentifierStart(s[i])
    ensures TokenStep(s, i).Success?
    ensures var st := TokenStep(s, i).value;
      var k := st.last;
      var text := s[i..k + 1];
      && st.emitted == Some(Token(IdentifierKind(text), text, LineAt(s, k)))
      && (forall j :: 0 <= j < |text| ==> IsIdentifierInner(text[j]))
      && (k + 1 < |s| ==> !IsIdentifierInner(s[k + 1]))
      && (text in Keywords <==> !IdentifierKind(text).IDENTIFIER?)
      && (text !in Keywords ==> IdentifierKind(text) == IDENTIFIER(text))
  {
    IdentifierEndRun(s, i);
  }

  /** A quote starts a string literal. */
  lemma QuoteStep(s: string, i: nat)
    requires i < |s| && s[i] == '"'
    ensures TokenStep(s, i) == StringStep(s, i)
  {
  }

  /**
   * A string literal closed by the first quote q after i: its payload is the text
   * strictly between the quotes and its lexeme includes them. With nothing between
   * the quotes Swift traps.
   */
  lemma StringLiteral(s: string, i: nat, q: nat)
    requires i < q < |s| && s[i] == '"' && s[q] == '"'
    requires forall j :: i < j < q ==> s[j] != '"'
    ensures q >= i + 2 ==>
      StringStep(s, i) == Success(Step(Some(Token(STRING(s[i + 1..q]), s[i..q + 1], LineAt(s, q))), q))
    ensures q == i + 1 ==> StringStep(s, i) == Failure(Trapped(q))
  {
    UntilStopIsFirst(s, i, '"', q - 1);
  }

  /** With no closing quote the scan fails with "Unterminated string"; a lone trailing quote traps. */
  lemma UnterminatedString(s: string, i: nat)
    requires i < |s| && s[i] == '"'
    requires forall j :: i < j < |s| ==> s[j] != '"'
    ensures i + 1 < |s| ==>
      StringStep(s, i) == Failure(Thrown(ScannerError(LineAt(s, |s| - 1), PosAt(s, |s| - 1), "Unterminated string")))
    ensures i + 1 == |s| ==> StringStep(s, i) == Failure(Trapped(i))
  {
    UntilStopIsFirst(s, i, '"', |s| - 1);
  }

  /** Space, carriage return and newline produce no token. */
  lemma WhitespaceIsSkipped(s: string, i: nat)
    requires i < |s| && s[i] in " \r\n"
    ensures TokenStep(s, i) == Success(Step(None, i))
  {
  }

  /** Any other character, tab included, is an error naming the character. */
  lemma InvalidCharacter(s: string, i: nat)
    requires i < |s| && !IsRecognised(s[i])
    ensures TokenStep(s, i) == Failure(Thrown(ScannerError(LineAt(s, i), PosAt(s, i), "Invalid character " + [s[i]])))
  {
  }

  lemma TabIsInvalid(s: string, i: nat)
    requires i < |s| && s[i] == '\t'
    ensures TokenStep(s, i).Failure? && TokenStep(s, i).error.Thrown?
  {
    InvalidCharacter(s, i);
  }

  // ---------------------------------------------------------------- the whole scan

  /** Empty input scans to the EOF token alone. */
  lemma EmptyInput()
    ensures Scan("") == Success([Token(EOF, "", 1)])
  {
    assert [] + [EofToken(LineAt("", 0))] == [Token(EOF, "", 1)];
  }

  /** The facts about a finished token list that the scan loop keeps. */
  predicate EndsWithEof(ts: seq<Token>, acc: seq<Token>) {
    && |ts| > |acc|
    && ts[..|acc|] == acc
    && NoEof(ts[..|ts| - 1])
    && ts[|ts| - 1].kind == EOF
    && ts[|ts| - 1].lexeme == ""
  }

  lemma EndsWithEofShorter(ts: seq<Token>, acc: seq<Token>, more: seq<Token>)
    requires EndsWithEof(ts, acc + more)
    ensures EndsWithEof(ts, acc)
  {
    assert ts[..|acc|] == (acc + more)[..|acc|];
  }

  lemma EndsWithEofLast(acc: seq<Token>, line: int)
    requires NoEof(acc)
    ensures EndsWithEof(acc + [EofToken(line)], acc)
  {
    var ts := acc + [EofToken(line)];
    assert ts[..|ts| - 1] == acc;
    assert ts[..|acc|] == acc;
  }

  lemma {:induction false} ScanLoopEndsWithEof(s: string, i: nat, acc: seq<Token>)
    requires i < |s| && NoEof(acc)
    ensures ScanLoop(s, i, acc).Success? ==> EndsWithEof(ScanLoop(s, i, acc).value, acc)
    decreases |s| - i
  {
    var r := TokenStep(s, i);
    if r.Success? {
      var st := r.value;
      TokenStepNeverEof(s, i);
      var acc' := acc + Emitted(st);
      assert NoEof(acc');
      if st.last + 1 < |s| {
        ScanLoopEndsWithEof(s, st.last + 1, acc');
        if ScanLoop(s, i, acc).Success? {
          EndsWithEofShorter(ScanLoop(s, i, acc).value, acc, Emitted(st));
        }
      } else {
        EndsWithEofLast(acc', LineAt(s, st.last));
        EndsWithEofShorter(acc' + [EofToken(LineAt(s, st.last))], acc, Emitted(st));
      }
    }
  }

  /** A successful scan ends with exactly one EOF token, which has an empty lexeme. */
  lemma ScanEndsWithOneEof(s: string)
    requires Scan(s).Success?
    ensures var ts := Scan(s).value;
      |ts| > 0 && ts[|ts| - 1].kind == EOF && ts[|ts| - 1].lexeme == "" && NoEof(ts[..|ts| - 1])
  {
    if s != [] {
      ScanLoopEndsWithEof(s, 0, []);
    } else {
      EmptyInput();
    }
  }

  /** The token `scanToken` appends carries the line `idx` ends on. */
  lemma TokenStepLine(s: string, i: nat)
    requires i < |s|
    ensures var r := TokenStep(s, i);
      r.Success? && r.value.emitted.Some? ==> r.value.emitted.value.line == LineAt(s, r.value.last)
  {
  }

  lemma SortedExtend(acc: seq<Token>, more: seq<Token>, line: int)
    requires LinesSorted(acc) && forall k :: 0 <= k < |acc| ==> acc[k].line <= line
    requires forall k :: 0 <= k < |more| ==> more[k].line == line
    ensures LinesSorted(acc + more) && forall k :: 0 <= k < |acc + more| ==> (acc + more)[k].line <= line
  {
  }

  lemma {:induction false} ScanLoopLinesSorted(s: string, i: nat, acc: seq<Token>)
    requires i < |s| && LinesSorted(acc)
    requires forall k :: 0 <= k < |acc| ==> acc[k].line <= LineAt(s, i)
    ensures ScanLoop(s, i, acc).Success? ==> LinesSorted(ScanLoop(s, i, acc).value)
    decreases |s| - i
  {
    ScanLoopUnfolds(s, i, acc);
    var r := TokenStep(s, i);
    if r.Success? {
      var st := r.value;
      var line := LineAt(s, st.last);
      TokenStepLine(s, i);
      LineAtMonotone(s, i, st.last);
      SortedExtend(acc, Emitted(st), line);
      var acc' := acc + Emitted(st);
      if st.last + 1 < |s| {
        LineAtMonotone(s, st.last, st.last + 1);
        ScanLoopLinesSorted(s, st.last + 1, acc');
      } else {
        SortedExtend(acc', [EofToken(line)], line);
      }
    }
  }

  /** Token lines never decrease along a successful scan. */
  lemma ScanLinesNeverDecrease(s: string)
    requires Scan(s).Success?
    ensures LinesSorted(Scan(s).value)
  {
    if s != [] {
      ScanLoopLinesSorted(s, 0, []);
    }
  }

  /** `1.` scans as NUMBER `1` followed by DOT: the dot is not taken without a digit after it. */
  lemma TrailingDotIsNotPartOfNumber()
    ensures Scan("1.") == Success([Token(NUMBER("1"), "1", 1), Token(DOT, ".", 1), EofToken(1)])
  {
    var s := "1.";
    assert DigitsEnd(s, 0) == 0;
    assert NumberEnd(s, 0) == 0;
    assert s[0..1] == "1";
    var t0, t1 := Token(NUMBER("1"), "1", 1), Token(DOT, ".", 1);
    assert TokenStep(s, 0) == Success(Step(Some(t0), 0));
    assert s[1..2] == ".";
    assert LineAt(s, 1) == 1;
    assert TokenStep(s, 1) == Success(Step(Some(t1), 1));
    assert [t0] + [t1] + [EofToken(1)] == [t0, t1, EofToken(1)];
    assert ScanLoop(s, 1, [t0]) == Success([t0] + [t1] + [EofToken(LineAt(s, 1))]);
    assert [] + [t0] == [t0];
    assert ScanLoop(s, 0, []) == ScanLoop(s, 1, [t0]);
  }
}
