/**
 * What the scanner computes, as functions of the source text and a character offset.
 * The Scanner class keeps `idx` on the last character of the token being scanned;
 * every function here takes that offset and returns the offset `idx` ends on.
 */
module ScanSpec {
  import opened Wrappers
  import opened Tokens
  import opened Errors

  /** ASCII letters, standing for Swift's Unicode `isLetter`. */
  predicate IsAlpha(c: char) {
    'a' <= c <= 'z' || 'A' <= c <= 'Z'
  }

  predicate IsIdentifierStart(c: char) {
    IsAlpha(c) || c == '_'
  }

  predicate IsIdentifierInner(c: char) {
    IsIdentifierStart(c) || IsDigit(c)
  }

  /** Why a scan stops without tokens: a thrown LoxError, or a Swift runtime trap at an offset. */
  datatype ScanFailure = Thrown(error: LoxError) | Trapped(at: nat)

  /**
   * The `line` counter once `idx` has reached offset i: it starts at 1 and grows each
   * time `idx` steps onto a newline. Offset 0 is never stepped onto.
   */
  function LineAt(s: string, i: nat): int
    requires i == 0 || i < |s|
  {
    if i == 0 then 1 else LineAt(s, i - 1) + (if s[i] == '\n' then 1 else 0)
  }

  /** The `linePos` counter once `idx` has reached offset i. */
  function PosAt(s: string, i: nat): int
    requires i == 0 || i < |s|
  {
    if i == 0 then 1 else if s[i] == '\n' then 0 else PosAt(s, i - 1) + 1
  }

  /** The character after offset i, if there is one. */
  function PeekAt(s: string, i: nat): Option<char> {
    if i + 1 < |s| then Some(s[i + 1]) else None
  }

  /** The character two after offset i, if there is one. */
  function PeekNextAt(s: string, i: nat): Option<char> {
    if i + 2 < |s| then Some(s[i + 2]) else None
  }

  /** `c ?? " "` */
  function OrBlank(c: Option<char>): char {
    if c.Some? then c.value else ' '
  }

  /** Where `while !foundChar(c) { advance() }` stops: before c or on the last character. */
  function UntilStop(s: string, i: nat, c: char): (k: nat)
    requires i < |s|
    ensures i <= k < |s|
    ensures k + 1 == |s| || s[k + 1] == c
    decreases |s| - i
  {
    if i + 1 < |s| && s[i + 1] != c then UntilStop(s, i + 1, c) else i
  }

  /** Where `scanUntil(a: c, stopBefore:)` leaves `idx`. */
  function UntilEnd(s: string, i: nat, c: char, stopBefore: bool): (k: nat)
    requires i < |s|
    ensures i <= k < |s|
  {
    var k := UntilStop(s, i, c);
    if !stopBefore && k + 1 < |s| then k + 1 else k
  }

  /** The end of the run of digits that follows offset i. */
  function DigitsEnd(s: string, i: nat): (k: nat)
    requires i < |s|
    ensures i <= k < |s|
    ensures !IsDigit(OrBlank(PeekAt(s, k)))
    decreases |s| - i
  {
    if IsDigit(OrBlank(PeekAt(s, i))) then DigitsEnd(s, i + 1) else i
  }

  /** The last offset of a number literal starting at i: digits, then `.` and digits if a digit follows the dot. */
  function NumberEnd(s: string, i: nat): (k: nat)
    requires i < |s|
    ensures i <= k < |s|
  {
    var j := DigitsEnd(s, i);
    if PeekAt(s, j) == Some('.') && IsDigit(OrBlank(PeekNextAt(s, j))) then DigitsEnd(s, j + 1) else j
  }

  /** The two digit runs of scanNumber(), the dot between them skipped when a digit follows it. */
  lemma NumberEndSteps(s: string, i: nat)
    requires i < |s|
    ensures var j := DigitsEnd(s, i);
      NumberEnd(s, i) ==
        if PeekAt(s, j) == Some('.') && IsDigit(OrBlank(PeekNextAt(s, j))) then DigitsEnd(s, j + 1)
        else DigitsEnd(s, j)
  {
    var j := DigitsEnd(s, i);
    assert DigitsEnd(s, j) == j;
  }

  /** The end of the run of identifier characters that follows offset i. */
  function IdentifierEnd(s: string, i: nat): (k: nat)
    requires i < |s|
    ensures i <= k < |s|
    ensures !IsIdentifierInner(OrBlank(PeekAt(s, k)))
    decreases |s| - i
  {
    if IsIdentifierInner(OrBlank(PeekAt(s, i))) then IdentifierEnd(s, i + 1) else i
  }

  /** One call of `scanToken`: the token it appended, if any, and the offset `idx` ends on. */
  datatype Step = Step(emitted: Option<Token>, last: nat)

  function Emitted(st: Step): seq<Token> {
    if st.emitted.Some? then [st.emitted.value] else []
  }

  /** What `addToken` appends when the token spans offsets i to last. */
  function TokenAt(s: string, i: nat, last: nat, kind: TokenType): Token
    requires i <= last < |s|
  {
    Token(kind, s[i..last + 1], LineAt(s, last))
  }

  /** The kind of a character that is a token on its own, if it is one. */
  function SingleCharKind(c: char): Option<TokenType> {
    match c
    case '(' => Some(LEFT_PAREN)
    case ')' => Some(RIGHT_PAREN)
    case '{' => Some(LEFT_BRACE)
    case '}' => Some(RIGHT_BRACE)
    case ',' => Some(COMMA)
    case '.' => Some(DOT)
    case '-' => Some(MINUS)
    case '+' => Some(PLUS)
    case ';' => Some(SEMICOLON)
    case '*' => Some(STAR)
    case _ => None
  }

  /** `!`, `=`, `<` or `>` at i: the two-character kind when `=` follows, else the one-character kind. */
  function OperatorStep(s: string, i: nat, single: TokenType, double: TokenType): Step
    requires i < |s|
  {
    if PeekAt(s, i) == Some('=') then Step(Some(TokenAt(s, i, i + 1, double)), i + 1)
    else Step(Some(TokenAt(s, i, i, single)), i)
  }

  /** A string literal whose opening quote is at i. */
  function StringStep(s: string, i: nat): Result<Step, ScanFailure>
    requires i < |s|
  {
    var k := UntilEnd(s, i, '"', false);
    if s[k] != '"' then
      Failure(Thrown(ScannerError(LineAt(s, k), PosAt(s, k), "Unterminated string")))
    else if k < i + 2 then
      // The closed range from after the opening quote to before the closing one is empty.
      Failure(Trapped(k))
    else
      Success(Step(Some(TokenAt(s, i, k, STRING(s[i + 1..k]))), k))
  }

  function TokenStep(s: string, i: nat): (r: Result<Step, ScanFailure>)
    requires i < |s|
    ensures r.Success? ==> i <= r.value.last < |s|
  {
    var c := s[i];
    if SingleCharKind(c).Some? then Success(Step(Some(TokenAt(s, i, i, SingleCharKind(c).value)), i))
    else if c == '!' then Success(OperatorStep(s, i, BANG, BANG_EQUAL))
    else if c == '=' then Success(OperatorStep(s, i, EQUAL, EQUAL_EQUAL))
    else if c == '<' then Success(OperatorStep(s, i, LESS, LESS_EQUAL))
    else if c == '>' then Success(OperatorStep(s, i, GREATER, GREATER_EQUAL))
    else if c == '/' then
      if PeekAt(s, i) == Some('/') then Success(Step(None, UntilEnd(s, i + 1, '\n', false)))
      else Success(Step(Some(TokenAt(s, i, i, SLASH)), i))
    else if c == '"' then StringStep(s, i)
    else if c == '\r' || c == '\n' || c == ' ' then Success(Step(None, i))
    else if IsDigit(c) then
      var k := NumberEnd(s, i);
      Success(Step(Some(TokenAt(s, i, k, NUMBER(s[i..k + 1]))), k))
    else if IsIdentifierStart(c) then
      var k := IdentifierEnd(s, i);
      Success(Step(Some(TokenAt(s, i, k, IdentifierKind(s[i..k + 1]))), k))
    else
      Failure(Thrown(ScannerError(LineAt(s, i), PosAt(s, i), "Invalid character " + [c])))
  }

  function EofToken(line: int): Token {
    Token(EOF, "", line)
  }

  /** The `repeat { scanToken() } while advance()` loop from offset i with tokens acc already appended. */
  function ScanLoop(s: string, i: nat, acc: seq<Token>): Result<seq<Token>, ScanFailure>
    requires i < |s|
    decreases |s| - i
  {
    match TokenStep(s, i)
    case Failure(f) => Failure(f)
    case Success(st) =>
      if st.last + 1 < |s| then ScanLoop(s, st.last + 1, acc + Emitted(st))
      else Success(acc + Emitted(st) + [EofToken(LineAt(s, st.last))])
  }

  /** One round of the scan loop: the token at i, then the rest or EOF. */
  lemma ScanLoopUnfolds(s: string, i: nat, acc: seq<Token>)
    requires i < |s|
    ensures var t := TokenStep(s, i);
            ScanLoop(s, i, acc) ==
              if t.Failure? then Failure(t.error)
              else if t.value.last + 1 < |s| then ScanLoop(s, t.value.last + 1, acc + Emitted(t.value))
              else Success(acc + Emitted(t.value) + [EofToken(LineAt(s, t.value.last))])
  {
  }

  /** `scanTokens` from offset i with tokens acc already appended. */
  function ScanFrom(s: string, i: nat, acc: seq<Token>): Result<seq<Token>, ScanFailure>
    requires i == 0 || i < |s|
  {
    if s == [] then Success(acc + [EofToken(LineAt(s, i))]) else ScanLoop(s, i, acc)
  }

  /** `Scanner(source: s).scanTokens()` */
  function Scan(s: string): Result<seq<Token>, ScanFailure> {
    ScanFrom(s, 0, [])
  }
}
