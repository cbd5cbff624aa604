/** The decoder on any buffer, in terms of the grammar alone: it hands out a value exactly where the
    grammar has one, it waits exactly as long as some continuation would make a value, and it gives
    up at the first byte after which no continuation would. */
module JsonViability {
  import opened JsonScanner
  import opened Framing
  import opened JsonGrammar
  import JsonSoundness

  predicate BeginsNumber(c: byte) {
    c == MINUS || IsDigit(c)
  }

  // ---------------------------------------------------------------- top-level values

  lemma {:induction false} LettersComplete(tail: Bytes)
    requires tail != []
    ensures ScanFrom(Scanner(InLiteral(tail), []), tail) == Complete(|tail|)
    decreases |tail|
  {
    if |tail| > 1 {
      LettersComplete(tail[1..]);
    }
  }

  lemma LiteralComplete(c: byte)
    requires LiteralTail(c) != []
    ensures ScanFrom(START, [c] + LiteralTail(c)) == Complete(|[c] + LiteralTail(c)|)
  {
    var tail := LiteralTail(c);
    LettersComplete(tail);
    OneByte(START, c);
    hide Step, LiteralTail;
    ScanAppend(START, [c], tail);
  }

  lemma StringComplete(body: Bytes)
    requires GoodString(body)
    ensures ScanFrom(START, Quoted(body)) == Complete(|Quoted(body)|)
  {
    var t := Scanner(InString, []);
    OneByte(START, QUOTE);
    OverString([], body);
    CompletesWith(t, QUOTE);
    hide Step, ScanFrom;
    Then(START, [QUOTE], t, body, t);
    ScanAppend(START, [QUOTE] + body, [QUOTE]);
  }

  lemma BracketComplete(v: Value)
    requires GoodValue(v) && Closing(v) != []
    ensures ScanFrom(START, Text(v)) == Complete(|Text(v)|)
  {
    var t := OverInside(v, []);
    CompletesWith(t, Closing(v)[0]);
    hide Step, ScanFrom, Inside;
    ScanAppend(START, Inside(v), Closing(v));
  }

  lemma ValueComplete(v: Value)
    requires GoodValue(v) && !v.Num?
    ensures ScanFrom(START, Text(v)) == Complete(|Text(v)|)
  {
    hide ScanFrom, GoodString, LiteralTail, Quoted;
    match v
    case Literal(c) =>
      LiteralComplete(c);
      JsonSoundness.ScalarText(v);
    case Str(body) =>
      StringComplete(body);
      JsonSoundness.ScalarText(v);
    case EmptyArray(_) => BracketComplete(v);
    case Array(_, _, _, _) => BracketComplete(v);
    case EmptyObject(_) => BracketComplete(v);
    case Object(_, _, _) => BracketComplete(v);
  }

  lemma ValueRead(b: Bytes, n: nat) returns (v: Value)
    requires b != [] && !IsSpace(b[0]) && !BeginsNumber(b[0]) && ScanFrom(START, b) == Complete(n)
    ensures GoodValue(v) && !v.Num? && Text(v) == b[..n]
  {
    hide Step, ScanFrom, GoodValue, Text;
    var i := JsonSoundness.Input(b, n);
    var k;
    assert JsonSoundness.Completes(START, i);
    if b[0] == OPEN_BRACE {
      v, k := JsonSoundness.ParseObject([], i);
    } else if b[0] == OPEN_BRACKET {
      v, k := JsonSoundness.ParseArray([], i);
    } else if b[0] == QUOTE {
      v, k := JsonSoundness.ParseStr([], i);
    } else {
      v, k := JsonSoundness.ParseLiteral([], i);
    }
    assert b == Text(v) + k.bytes && |Text(v)| == n;
  }

  // ---------------------------------------------------------------- every live state can complete

  predicate NumberMode(m: Mode) {
    m in {Negative, Zero, Integer, Point, Fraction, Exponent, ExponentSign, ExponentDigits}
  }

  /** The states that can be reached inside a value that is not a number, before its end. */
  predicate Live(s: Scanner) {
    && s.mode !in {Done, Bad}
    && (s.mode.InLiteral? ==> s.mode.rest != [])
    && (s.mode in {BeginValue, BeginValueOrEnd, EndValue} || NumberMode(s.mode) ==> s.stack != [])
  }

  lemma LiveStep(s: Scanner, c: byte)
    requires Live(s)
    ensures var t := Step(s, c); t.mode.Done? || t.mode.Bad? || Live(t)
  {
  }

  lemma LiveStart(c: byte)
    requires !IsSpace(c) && !BeginsNumber(c)
    ensures var t := Step(START, c); t.mode.Done? || t.mode.Bad? || Live(t)
  {
  }

  lemma {:induction false} LiveForever(s: Scanner, b: Bytes)
    requires Live(s)
    ensures var r := ScanFrom(s, b); r.Pending? ==> Live(r.at)
    decreases |b|
  {
    if b != [] {
      LiveStep(s, b[0]);
      hide Step, Live;
      var t := Step(s, b[0]);
      if !t.mode.Done? && !t.mode.Bad? {
        LiveForever(t, b[1..]);
      }
    }
  }

  lemma PendingIsLive(b: Bytes)
    requires b != [] && !IsSpace(b[0]) && !BeginsNumber(b[0]) && ScanFrom(START, b).Pending?
    ensures Live(ScanFrom(START, b).at)
  {
    LiveStart(b[0]);
    hide Step, Live;
    LiveForever(Step(START, b[0]), b[1..]);
  }

  /** The bytes `x` complete the value that is being read in the state `s`. */
  predicate Ends(s: Scanner, x: Bytes) {
    ScanFrom(s, x) == Complete(|x|)
  }

  lemma EndsAfter(s: Scanner, a: Bytes, t: Scanner, x: Bytes)
    requires Goes(s, a, t) && Ends(t, x)
    ensures Ends(s, a + x)
  {
    ScanAppend(s, a, x);
  }

  lemma EndsByte(s: Scanner, c: byte, t: Scanner, x: Bytes)
    requires Step(s, c) == t && !t.mode.Done? && !t.mode.Bad? && Ends(t, x)
    ensures Ends(s, [c] + x)
  {
    OneByte(s, c);
    hide Step, ScanFrom;
    EndsAfter(s, [c], t, x);
  }

  /** A closing byte that completes what is inside `stack`. */
  lemma {:induction false} EndsClosing(s: Scanner, c: byte, stack: seq<Frame>) returns (x: Bytes)
    requires Step(s, c) == Completed(stack)
    ensures Ends(s, x)
    decreases |stack|, 1
  {
    hide Step, Live;
    if stack == [] {
      CompletesWith(s, c);
      x := [c];
    } else {
      var t := Scanner(EndValue, stack);
      var y := EndsSettled(t);
      EndsByte(s, c, t, y);
      x := [c] + y;
    }
  }

  /** After a value inside a bracket: close the bracket, or first give a key its value. */
  lemma {:induction false} EndsSettled(s: Scanner) returns (x: Bytes)
    requires Settled(s, s.stack)
    ensures Ends(s, x)
    decreases |s.stack|, 0
  {
    hide ScanFrom, Ends;
    var base, f := s.stack[..|s.stack| - 1], s.stack[|s.stack| - 1];
    assert s.stack == base + [f];
    SettledByte(s, s.stack, CLOSE_BRACE);
    SettledByte(s, s.stack, CLOSE_BRACKET);
    SettledByte(s, s.stack, COLON);
    match f
    case ObjectValue => x := EndsClosing(s, CLOSE_BRACE, base);
    case ArrayValue => x := EndsClosing(s, CLOSE_BRACKET, base);
    case ObjectKey =>
      var inValue := base + [ObjectValue];
      var v, w, e := Scanner(BeginValue, inValue), Scanner(InString, inValue), Scanner(EndValue, inValue);
      TopOf(base, ObjectKey);
      TopOf(base, ObjectValue);
      assert Step(e, CLOSE_BRACE) == Completed(base);
      var y := EndsClosing(e, CLOSE_BRACE, base);
      EndsByte(w, QUOTE, e, y);
      EndsByte(v, QUOTE, w, [QUOTE] + y);
      EndsByte(s, COLON, v, [QUOTE] + ([QUOTE] + y));
      x := [COLON] + ([QUOTE] + ([QUOTE] + y));
  }

  lemma {:induction false} EndsLetters(stack: seq<Frame>, rest: Bytes) returns (x: Bytes)
    requires rest != []
    ensures Ends(Scanner(InLiteral(rest), stack), x)
    decreases |rest|
  {
    hide ScanFrom, Ends;
    var s := Scanner(InLiteral(rest), stack);
    if |rest| == 1 {
      x := EndsClosing(s, rest[0], stack);
    } else {
      var y := EndsLetters(stack, rest[1..]);
      EndsByte(s, rest[0], Scanner(InLiteral(rest[1..]), stack), y);
      x := [rest[0]] + y;
    }
  }

  lemma {:induction false} EndsHex(stack: seq<Frame>, left: nat) returns (x: Bytes)
    ensures Ends(Scanner(InUnicode(left), stack), x)
    decreases left
  {
    hide ScanFrom, Ends;
    var s, zero: byte := Scanner(InUnicode(left), stack), 0x30;
    var t, y;
    if left <= 1 {
      t := Scanner(InString, stack);
      y := EndsClosing(t, QUOTE, stack);
    } else {
      t := Scanner(InUnicode(left - 1), stack);
      y := EndsHex(stack, left - 1);
    }
    EndsByte(s, zero, t, y);
    x := [zero] + y;
  }

  /** Whatever has been read, as long as the scan has not failed some bytes complete the value. */
  lemma LiveEnds(s: Scanner) returns (x: Bytes)
    requires Live(s)
    ensures Ends(s, x)
  {
    hide ScanFrom, Ends;
    var inString := Scanner(InString, s.stack);
    if s.mode in {BeginValue, BeginValueOrEnd, BeginKeyOrEnd, BeginKey} {
      var y := EndsClosing(inString, QUOTE, s.stack);
      EndsByte(s, QUOTE, inString, y);
      x := [QUOTE] + y;
    } else if s.mode.InString? {
      x := EndsClosing(s, QUOTE, s.stack);
    } else if s.mode.InEscape? {
      var y := EndsClosing(inString, QUOTE, s.stack);
      EndsByte(s, 0x6E, inString, y);
      x := [0x6E] + y;
    } else if s.mode.InUnicode? {
      x := EndsHex(s.stack, s.mode.left);
    } else if s.mode.InLiteral? {
      x := EndsLetters(s.stack, s.mode.rest);
    } else {
      x := NumberEnds(s);
    }
  }

  lemma NumberEnds(s: Scanner) returns (x: Bytes)
    requires Live(s) && (s.mode.EndValue? || NumberMode(s.mode))
    ensures Ends(s, x)
  {
    hide ScanFrom, Ends;
    if Settled(s, s.stack) {
      x := EndsSettled(s);
    } else {
      var t := Step(s, 0x30);
      assert Settled(t, s.stack);
      var y := EndsSettled(t);
      EndsByte(s, 0x30, t, y);
      x := [0x30] + y;
    }
  }

  // ---------------------------------------------------------------- the decoder, exactly

  /** The text of some value that is not a number. */
  ghost predicate IsText(b: Bytes) {
    exists v :: GoodValue(v) && !v.Num? && Text(v) == b
  }

  /** The buffer begins with the text of a value. */
  ghost predicate HoldsText(b: Bytes, n: nat) {
    n <= |b| && IsText(b[..n])
  }

  /** Some continuation of the buffer begins with the text of a value. */
  ghost predicate CanHoldText(b: Bytes) {
    exists x: Bytes, n: nat :: HoldsText(b + x, n)
  }

  lemma CompleteMeans(b: Bytes, n: nat)
    requires b != [] && !IsSpace(b[0]) && !BeginsNumber(b[0])
    ensures ScanFrom(START, b) == Complete(n) <==> HoldsText(b, n)
  {
    hide Step, ScanFrom, GoodValue, Text;
    if ScanFrom(START, b) == Complete(n) {
      var v := ValueRead(b, n);
    }
    if HoldsText(b, n) {
      var v :| GoodValue(v) && !v.Num? && Text(v) == b[..n];
      ValueComplete(v);
      ScanAppend(START, b[..n], b[n..]);
      assert b[..n] + b[n..] == b;
    }
  }

  lemma PendingMeans(b: Bytes)
    requires b != [] && !IsSpace(b[0]) && !BeginsNumber(b[0])
    ensures ScanFrom(START, b).Pending? ==> CanHoldText(b) && forall n :: !HoldsText(b, n)
    ensures ScanFrom(START, b).Stuck? ==> !CanHoldText(b)
  {
    hide Step, ScanFrom, HoldsText, Live;
    if ScanFrom(START, b).Pending? {
      PendingIsLive(b);
      var x := LiveEnds(ScanFrom(START, b).at);
      ScanAppend(START, b, x);
      CompleteMeans(b + x, |b + x|);
      assert HoldsText(b + x, |b + x|);
      forall n ensures !HoldsText(b, n) {
        CompleteMeans(b, n);
      }
    }
    if ScanFrom(START, b).Stuck? {
      forall x: Bytes, n: nat ensures !HoldsText(b + x, n) {
        ScanAppend(START, b, x);
        CompleteMeans(b + x, n);
      }
    }
  }

  /** What one call of the decoder makes of any buffer that, after its whitespace, does not begin
      with a number: the value that the buffer begins with, if it begins with one; otherwise it
      waits if some continuation would begin with one, and gives up if none would. */
  lemma DecoderExactly(b: Bytes)
    requires Blank(b) || !BeginsNumber(SkipSpace(b)[0])
    ensures var t, d := SkipSpace(b), Decode(b);
            && (d.EndOfInput? <==> Blank(b))
            && (d.Value? ==> IsText(d.text) && t == d.text + d.rest)
            && (!Blank(b) ==> (d.Value? <==> exists n :: HoldsText(t, n)))
            && (!Blank(b) ==> (d.Malformed? <==> !CanHoldText(t)))
  {
    hide Step, ScanFrom, IsText, SkipSpace;
    var t := SkipSpace(b);
    if t != [] {
      PendingMeans(t);
      match ScanFrom(START, t)
      case Complete(n) =>
        CompleteMeans(t, n);
        assert HoldsText(t, n);
        assert t + [] == t;
        assert HoldsText(t + [], n);
        assert t[..n] + t[n..] == t;
      case Stuck =>
        NothingHeld(t);
      case Pending(s) =>
        NotBare(b);
    }
  }

  lemma NothingHeld(t: Bytes)
    requires !CanHoldText(t)
    ensures forall n :: !HoldsText(t, n)
  {
    hide HoldsText;
    assert t + [] == t;
    forall n: nat ensures !HoldsText(t, n) {
      assert !HoldsText(t + [], n);
    }
  }

  /** What does not begin like a number is none. */
  lemma NotBare(b: Bytes)
    requires !Blank(b) && !BeginsNumber(SkipSpace(b)[0])
    ensures !BareNumber(b)
  {
    hide Step, Live, SkipSpace, ScanFrom;
    var t := SkipSpace(b);
    if ScanFrom(START, t).Pending? {
      PendingIsLive(t);
      LiveIsNoNumber(ScanFrom(START, t).at);
    }
  }

  lemma LiveIsNoNumber(s: Scanner)
    requires Live(s)
    ensures !(s.stack == [] && WholeNumber(s.mode))
  {
  }
}
