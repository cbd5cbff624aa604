/** The byte scanner behind the streaming JSON decoder.

    It follows the grammar of RFC 8259 (section 2 for whitespace and values, section 4 for
    objects, section 5 for arrays, section 6 for numbers, section 7 for strings) as a pushdown
    automaton: a mode, and a stack that says what each open bracket is waiting for.
 */
module JsonScanner {

  newtype byte = i: int | 0 <= i < 256

  type Bytes = seq<byte>

  const QUOTE: byte := 0x22
  const PLUS: byte := 0x2B
  const COMMA: byte := 0x2C
  const MINUS: byte := 0x2D
  const DOT: byte := 0x2E
  const COLON: byte := 0x3A
  const OPEN_BRACKET: byte := 0x5B
  const BACKSLASH: byte := 0x5C
  const CLOSE_BRACKET: byte := 0x5D
  const OPEN_BRACE: byte := 0x7B
  const CLOSE_BRACE: byte := 0x7D

  predicate IsSpace(c: byte) {
    c == 0x20 || c == 0x09 || c == 0x0A || c == 0x0D
  }

  predicate IsDigit(c: byte) {
    0x30 <= c <= 0x39
  }

  predicate IsHex(c: byte) {
    IsDigit(c) || 0x41 <= c <= 0x46 || 0x61 <= c <= 0x66
  }

  /** What may follow a backslash: the quote, backslash, slash, and b, f, n, r, t. */
  predicate IsEscape(c: byte) {
    c in {QUOTE, BACKSLASH, 0x2F, 0x62, 0x66, 0x6E, 0x72, 0x74}
  }

  predicate IsExponent(c: byte) {
    c == 0x65 || c == 0x45
  }

  function LiteralTail(c: byte): Bytes {
    if c == 0x74 then [0x72, 0x75, 0x65]             // true
    else if c == 0x66 then [0x61, 0x6C, 0x73, 0x65]  // false
    else if c == 0x6E then [0x75, 0x6C, 0x6C]        // null
    else []
  }

  /** What an open bracket is waiting for. */
  datatype Frame = ObjectKey | ObjectValue | ArrayValue

  datatype Mode =
    | BeginValue            // a value must start here
    | BeginValueOrEnd       // just after '['
    | BeginKeyOrEnd         // just after '{'
    | BeginKey              // after ',' in an object
    | InString
    | InEscape
    | InUnicode(left: nat)  // inside \uXXXX
    | InLiteral(rest: Bytes)
    | Negative              // after '-'
    | Zero
    | Integer
    | Point                 // after '.'
    | Fraction
    | Exponent              // after 'e'
    | ExponentSign
    | ExponentDigits
    | EndValue              // a value inside a bracket is complete
    | Done                  // the top-level value is complete
    | Bad

  datatype Scanner = Scanner(mode: Mode, stack: seq<Frame>)

  const START := Scanner(BeginValue, [])
  const BAD := Scanner(Bad, [])

  /** The modes in which the number read so far is a whole number. */
  predicate WholeNumber(m: Mode) {
    m in {Zero, Integer, Fraction, ExponentDigits}
  }

  /** The state once a value has just been completed with its last byte. */
  function Completed(stack: seq<Frame>): Scanner {
    if stack == [] then Scanner(Done, []) else Scanner(EndValue, stack)
  }

  function Pop(stack: seq<Frame>): Scanner
    requires stack != []
  {
    Completed(stack[..|stack| - 1])
  }

  function Replace(stack: seq<Frame>, f: Frame): seq<Frame>
    requires stack != []
  {
    stack[..|stack| - 1] + [f]
  }

  function OpenValue(stack: seq<Frame>, c: byte): Scanner {
    if c == OPEN_BRACE then Scanner(BeginKeyOrEnd, stack + [ObjectKey])
    else if c == OPEN_BRACKET then Scanner(BeginValueOrEnd, stack + [ArrayValue])
    else if c == QUOTE then Scanner(InString, stack)
    else if c == MINUS then Scanner(Negative, stack)
    else if c == 0x30 then Scanner(Zero, stack)
    else if IsDigit(c) then Scanner(Integer, stack)
    else if LiteralTail(c) != [] then Scanner(InLiteral(LiteralTail(c)), stack)
    else BAD
  }

  /** A byte after a complete value. With no bracket open that value is a bare number, and a
      bare number never fits a response record, so the decoder reports an error either way. */
  function AfterValue(stack: seq<Frame>, c: byte): Scanner {
    if stack == [] then BAD
    else if IsSpace(c) then Scanner(EndValue, stack)
    else
      match stack[|stack| - 1]
      case ObjectKey =>
        if c == COLON then Scanner(BeginValue, Replace(stack, ObjectValue)) else BAD
      case ObjectValue =>
        if c == COMMA then Scanner(BeginKey, Replace(stack, ObjectKey))
        else if c == CLOSE_BRACE then Pop(stack)
        else BAD
      case ArrayValue =>
        if c == COMMA then Scanner(BeginValue, stack)
        else if c == CLOSE_BRACKET then Pop(stack)
        else BAD
  }

  function Step(s: Scanner, c: byte): Scanner {
    match s.mode
    case BeginValue =>
      if IsSpace(c) then s else OpenValue(s.stack, c)
    case BeginValueOrEnd =>
      if IsSpace(c) then s
      else if c == CLOSE_BRACKET then AfterValue(s.stack, c)
      else OpenValue(s.stack, c)
    case BeginKeyOrEnd =>
      if IsSpace(c) then s
      else if c == CLOSE_BRACE && s.stack != [] then Pop(s.stack)
      else if c == QUOTE then Scanner(InString, s.stack)
      else BAD
    case BeginKey =>
      if IsSpace(c) then s else if c == QUOTE then Scanner(InString, s.stack) else BAD
    case InString =>
      if c == QUOTE then Completed(s.stack)
      else if c == BACKSLASH then Scanner(InEscape, s.stack)
      else if c < 0x20 then BAD
      else s
    case InEscape =>
      if IsEscape(c) then Scanner(InString, s.stack)
      else if c == 0x75 then Scanner(InUnicode(4), s.stack)
      else BAD
    case InUnicode(left) =>
      if !IsHex(c) then BAD
      else if left <= 1 then Scanner(InString, s.stack)
      else Scanner(InUnicode(left - 1), s.stack)
    case InLiteral(rest) =>
      if rest == [] || c != rest[0] then BAD
      else if |rest| == 1 then Completed(s.stack)
      else Scanner(InLiteral(rest[1..]), s.stack)
    case Negative =>
      if c == 0x30 then Scanner(Zero, s.stack)
      else if IsDigit(c) then Scanner(Integer, s.stack)
      else BAD
    case Zero =>
      if c == DOT then Scanner(Point, s.stack)
      else if IsExponent(c) then Scanner(Exponent, s.stack)
      else AfterValue(s.stack, c)
    case Integer =>
      if IsDigit(c) then s
      else if c == DOT then Scanner(Point, s.stack)
      else if IsExponent(c) then Scanner(Exponent, s.stack)
      else AfterValue(s.stack, c)
    case Point =>
      if IsDigit(c) then Scanner(Fraction, s.stack) else BAD
    case Fraction =>
      if IsDigit(c) then s
      else if IsExponent(c) then Scanner(Exponent, s.stack)
      else AfterValue(s.stack, c)
    case Exponent =>
      if c == PLUS || c == MINUS then Scanner(ExponentSign, s.stack)
      else if IsDigit(c) then Scanner(ExponentDigits, s.stack)
      else BAD
    case ExponentSign =>
      if IsDigit(c) then Scanner(ExponentDigits, s.stack) else BAD
    case ExponentDigits =>
      if IsDigit(c) then s else AfterValue(s.stack, c)
    case EndValue => AfterValue(s.stack, c)
    case Done => BAD
    case Bad => BAD
  }

  /** The result of scanning a buffer: a value that ends after `count` bytes, a syntax error, or
      a buffer that ran out in the state `at`. */
  datatype Scan = Complete(count: nat) | Stuck | Pending(at: Scanner)

  function ScanFrom(s: Scanner, b: Bytes): (r: Scan)
    ensures r.Complete? ==> 0 < r.count <= |b|
    decreases |b|
  {
    if b == [] then Pending(s)
    else
      var t := Step(s, b[0]);
      if t.mode.Done? then Complete(1)
      else if t.mode.Bad? then Stuck
      else
        match ScanFrom(t, b[1..])
        case Complete(n) => Complete(n + 1)
        case Stuck => Stuck
        case Pending(u) => Pending(u)
  }

  function Shift(n: nat, r: Scan): Scan {
    match r
    case Complete(m) => Complete(n + m)
    case Stuck => Stuck
    case Pending(u) => Pending(u)
  }

  /** Scanning is a left-to-right fold: what the first part decided stands, and an undecided
      first part hands its state to the second. */
  lemma {:induction false} ScanAppend(s: Scanner, a: Bytes, b: Bytes)
    ensures ScanFrom(s, a + b) ==
            match ScanFrom(s, a)
            case Complete(n) => Complete(n)
            case Stuck => Stuck
            case Pending(u) => Shift(|a|, ScanFrom(u, b))
    decreases |a|
  {
    if a == [] {
      assert a + b == b;
    } else {
      assert (a + b)[1..] == a[1..] + b;
      ScanAppend(Step(s, a[0]), a[1..], b);
    }
  }

  /** No proper prefix of a complete value is itself complete, and none is an error. */
  lemma {:induction false} PrefixIsPending(s: Scanner, b: Bytes, n: nat)
    requires ScanFrom(s, b) == Complete(|b|) && n < |b|
    ensures ScanFrom(s, b[..n]).Pending?
  {
    ScanAppend(s, b[..n], b[n..]);
    assert b[..n] + b[n..] == b;
  }
}
