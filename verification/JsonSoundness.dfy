/** The converse of `JsonGrammar`: whatever object the scanner completes is the text of a tree
    that the grammar allows. Nothing malformed gets through.

    Each lemma reads one part of the grammar off a completed scan: it is given the input where
    the part begins and returns the part together with the input that follows its text. */
module JsonSoundness {
  import opened JsonScanner
  import opened Framing
  import opened JsonGrammar

  /** The bytes still to come, of which the first `left` belong to the value being read. */
  datatype Input = Input(bytes: Bytes, left: int)

  function Next(i: Input): Input
    requires i.bytes != []
  {
    Input(i.bytes[1..], i.left - 1)
  }

  /** The scan of the input from `s` completes after its first `left` bytes. */
  predicate Completes(s: Scanner, i: Input) {
    i.left > 0 && ScanFrom(s, i.bytes) == Complete(i.left)
  }

  /** What is left to scan once a value inside `stack` is complete. */
  predicate Remains(stack: seq<Frame>, i: Input) {
    if stack == [] then i.left == 0 else Completes(Scanner(EndValue, stack), i)
  }

  /** From `i` to `j` just `text` was read. */
  predicate Took(i: Input, text: Bytes, j: Input) {
    i.bytes == text + j.bytes && j.left == i.left - |text|
  }

  lemma TookNothing(i: Input)
    ensures Took(i, [], i)
  {
    assert [] + i.bytes == i.bytes;
  }

  lemma TookBoth(i: Input, a: Bytes, j: Input, b: Bytes, k: Input)
    requires Took(i, a, j) && Took(j, b, k)
    ensures Took(i, a + b, k) && |k.bytes| <= |j.bytes| <= |i.bytes|
  {
    assert a + (b + k.bytes) == (a + b) + k.bytes;
  }

  /** The first byte of a completed scan. */
  lemma First(s: Scanner, i: Input)
    requires Completes(s, i)
    ensures i.bytes != [] && Took(i, [i.bytes[0]], Next(i)) && |Next(i).bytes| < |i.bytes|
    ensures var t := Step(s, i.bytes[0]);
            && !t.mode.Bad?
            && (if t.mode.Done? then Next(i).left == 0 else Completes(t, Next(i)))
  {
    hide Step;
    assert i.bytes == [i.bytes[0]] + i.bytes[1..];
  }

  lemma {:induction false} ParseBlank(s: Scanner, i: Input) returns (w: Bytes, j: Input)
    requires Completes(s, i) && SkipsSpace(s)
    ensures Blank(w) && Took(i, w, j) && Completes(s, j)
    ensures j.bytes != [] && !IsSpace(j.bytes[0]) && |j.bytes| <= |i.bytes|
    decreases |i.bytes|
  {
    First(s, i);
    hide ScanFrom, Completes, Took;
    if IsSpace(i.bytes[0]) {
      assert Step(s, i.bytes[0]) == s;
      var v;
      v, j := ParseBlank(s, Next(i));
      w := [i.bytes[0]] + v;
      TookBoth(i, [i.bytes[0]], Next(i), v, j);
    } else {
      w, j := [], i;
      TookNothing(i);
    }
  }

  // ---------------------------------------------------------------- strings and literals

  /** One character of a string: an unescaped byte or an escape. */
  predicate OneCharacter(c: Bytes) {
    || (|c| == 1 && c[0] >= 0x20 && c[0] != QUOTE && c[0] != BACKSLASH)
    || (|c| == 2 && c[0] == BACKSLASH && IsEscape(c[1]))
    || (|c| == 6 && c[0] == BACKSLASH && c[1] == 0x75 && forall i | 2 <= i < 6 :: IsHex(c[i]))
  }

  lemma GoodStringStep(c: Bytes, tail: Bytes)
    requires OneCharacter(c) && GoodString(tail)
    ensures GoodString(c + tail)
  {
    var s := c + tail;
    assert s[|c|..] == tail;
  }

  lemma ParseCharacter(stack: seq<Frame>, i: Input) returns (c: Bytes, j: Input)
    requires Completes(Scanner(InString, stack), i) && i.bytes != [] && i.bytes[0] != QUOTE
    ensures OneCharacter(c) && Took(i, c, j) && |j.bytes| < |i.bytes|
    ensures Completes(Scanner(InString, stack), j)
  {
    First(Scanner(InString, stack), i);
    var x := i.bytes[0];
    j := Next(i);
    if x != BACKSLASH {
      c := [x];
    } else {
      var k := j;
      First(Scanner(InEscape, stack), k);
      var y := k.bytes[0];
      j := Next(k);
      TookBoth(i, [x], k, [y], j);
      c := [x] + [y];
      if !IsEscape(y) {
        var u := j;
        hide ScanFrom, Completes, Took;
        var h;
        h, j := ParseHex(stack, u);
        TookBoth(i, c, u, h, j);
        c := c + h;
      }
    }
  }

  lemma ParseHex(stack: seq<Frame>, i: Input) returns (h: Bytes, j: Input)
    requires Completes(Scanner(InUnicode(4), stack), i)
    ensures |h| == 4 && (forall k | 0 <= k < 4 :: IsHex(h[k])) && Took(i, h, j)
    ensures Completes(Scanner(InString, stack), j)
  {
    hide ScanFrom, Completes, Took;
    First(Scanner(InUnicode(4), stack), i);
    var i1 := Next(i);
    First(Scanner(InUnicode(3), stack), i1);
    var i2 := Next(i1);
    First(Scanner(InUnicode(2), stack), i2);
    var i3 := Next(i2);
    First(Scanner(InUnicode(1), stack), i3);
    j := Next(i3);
    var a, b, c, d := i.bytes[0], i1.bytes[0], i2.bytes[0], i3.bytes[0];
    TookBoth(i, [a], i1, [b], i2);
    TookBoth(i, [a] + [b], i2, [c], i3);
    TookBoth(i, [a] + [b] + [c], i3, [d], j);
    h := [a] + [b] + [c] + [d];
  }

  /** The characters of a string up to its closing quote. */
  lemma {:induction false} ParseString(stack: seq<Frame>, i: Input) returns (body: Bytes, j: Input)
    requires Completes(Scanner(InString, stack), i)
    ensures GoodString(body) && Took(i, body, j)
    ensures Completes(Scanner(InString, stack), j) && j.bytes != [] && j.bytes[0] == QUOTE
    decreases |i.bytes|
  {
    First(Scanner(InString, stack), i);
    hide Step, ScanFrom, Completes, Took;
    if i.bytes[0] == QUOTE {
      body, j := [], i;
      TookNothing(i);
    } else {
      var c, k := ParseCharacter(stack, i);
      var tail;
      tail, j := ParseString(stack, k);
      GoodStringStep(c, tail);
      body := c + tail;
      TookBoth(i, c, k, tail, j);
    }
  }

  /** A string with its quotes, as a value or as a key. */
  lemma ParseQuoted(s: Scanner, i: Input) returns (body: Bytes, j: Input)
    requires Completes(s, i) && i.bytes != [] && i.bytes[0] == QUOTE
    requires Step(s, QUOTE) == Scanner(InString, s.stack)
    ensures GoodString(body) && Took(i, Quoted(body), j) && Remains(s.stack, j) && |j.bytes| < |i.bytes|
  {
    First(s, i);
    var k;
    body, k := ParseString(s.stack, Next(i));
    First(Scanner(InString, s.stack), k);
    j := Next(k);
    hide ScanFrom, Took, GoodString;
    TookBoth(i, [QUOTE], Next(i), body, k);
    TookBoth(i, [QUOTE] + body, k, [QUOTE], j);
  }

  lemma {:induction false} ParseLetters(stack: seq<Frame>, tail: Bytes, i: Input) returns (j: Input)
    requires tail != [] && Completes(Scanner(InLiteral(tail), stack), i)
    ensures Took(i, tail, j) && Remains(stack, j)
    decreases |tail|
  {
    First(Scanner(InLiteral(tail), stack), i);
    hide ScanFrom, Took;
    assert tail == [tail[0]] + tail[1..];
    if |tail| == 1 {
      j := Next(i);
    } else {
      j := ParseLetters(stack, tail[1..], Next(i));
      TookBoth(i, [tail[0]], Next(i), tail[1..], j);
    }
  }

  // ---------------------------------------------------------------- numbers

  predicate NoDigit(b: Bytes) {
    b != [] ==> !IsDigit(b[0])
  }

  lemma DigitsStep(c: byte, more: Bytes)
    requires IsDigit(c) && forall k | 0 <= k < |more| :: IsDigit(more[k])
    ensures Digits([c] + more)
  {
  }

  lemma {:induction false} ParseDigits(s: Scanner, i: Input) returns (d: Bytes, j: Input)
    requires Completes(s, i) && s.mode in {Integer, Fraction, ExponentDigits}
    ensures (forall k | 0 <= k < |d| :: IsDigit(d[k])) && Took(i, d, j)
    ensures j.bytes != [] && NoDigit(j.bytes) && Completes(s, j)
    decreases |i.bytes|
  {
    First(s, i);
    hide ScanFrom, Completes, Took;
    if IsDigit(i.bytes[0]) {
      assert Step(s, i.bytes[0]) == s;
      hide Step;
      var more;
      more, j := ParseDigits(s, Next(i));
      d := [i.bytes[0]] + more;
      DigitsStep(i.bytes[0], more);
      TookBoth(i, [i.bytes[0]], Next(i), more, j);
    } else {
      d, j := [], i;
      TookNothing(i);
    }
  }

  /** Digits of which the first one leads from `s` to `t`. */
  lemma ParseSomeDigits(s: Scanner, t: Scanner, i: Input) returns (d: Bytes, j: Input)
    requires Completes(s, i) && i.bytes != [] && IsDigit(i.bytes[0]) && Step(s, i.bytes[0]) == t
    requires t.mode in {Integer, Fraction, ExponentDigits}
    ensures Digits(d) && d[0] == i.bytes[0] && Took(i, d, j)
    ensures j.bytes != [] && NoDigit(j.bytes) && Completes(t, j)
  {
    hide Step, ScanFrom, Completes, Took;
    First(s, i);
    var more;
    more, j := ParseDigits(t, Next(i));
    d := [i.bytes[0]] + more;
    DigitsStep(i.bytes[0], more);
    TookBoth(i, [i.bytes[0]], Next(i), more, j);
  }

  /** At the end of a number the next byte is read as after any other value. */
  lemma NumberEnds(s: Scanner, i: Input)
    requires Completes(s, i) && s.stack != [] && i.bytes != []
    requires Step(s, i.bytes[0]) == AfterValue(s.stack, i.bytes[0])
    ensures Remains(s.stack, i)
  {
    assert Step(Scanner(EndValue, s.stack), i.bytes[0]) == AfterValue(s.stack, i.bytes[0]);
    hide Step, AfterValue;
  }

  /** What the scanner does inside a number with a byte that cannot be a digit of it. */
  lemma NumberSteps(s: Scanner, c: byte)
    ensures s.mode in {Zero, Integer} && c == DOT ==> Step(s, c) == Scanner(Point, s.stack)
    ensures s.mode in {Zero, Integer, Fraction} && IsExponent(c) ==> Step(s, c) == Scanner(Exponent, s.stack)
    ensures s.mode in {Zero, Integer, Fraction} && c != DOT && !IsExponent(c) && (s.mode != Zero ==> !IsDigit(c)) ==>
              Step(s, c) == AfterValue(s.stack, c)
    ensures s.mode.ExponentDigits? && !IsDigit(c) ==> Step(s, c) == AfterValue(s.stack, c)
  {
    hide AfterValue;
  }

  /** Where a digit must come next. */
  lemma DigitSteps(s: Scanner, c: byte)
    ensures s.mode.Point? && !Step(s, c).mode.Bad? ==> IsDigit(c) && Step(s, c) == Scanner(Fraction, s.stack)
    ensures s.mode.ExponentSign? && !Step(s, c).mode.Bad? ==> IsDigit(c) && Step(s, c) == Scanner(ExponentDigits, s.stack)
    ensures s.mode.Exponent? && !Step(s, c).mode.Bad? ==>
              if c == PLUS || c == MINUS then Step(s, c) == Scanner(ExponentSign, s.stack)
              else IsDigit(c) && Step(s, c) == Scanner(ExponentDigits, s.stack)
    ensures s.mode in {BeginValue, Negative} && IsDigit(c) ==>
              Step(s, c) == Scanner(if c == 0x30 then Zero else Integer, s.stack)
    ensures s.mode.Negative? && !Step(s, c).mode.Bad? ==> IsDigit(c)
  {
    hide AfterValue;
  }

  /** The part of a number after its point, if it has one. */
  lemma ParseFraction(s: Scanner, i: Input) returns (fraction: Bytes, t: Scanner, j: Input)
    requires Completes(s, i) && s.mode in {Zero, Integer} && (s.mode.Integer? ==> NoDigit(i.bytes))
    ensures fraction != [] ==> Digits(fraction)
    ensures Took(i, if fraction != [] then [DOT] + fraction else [], j)
    ensures t.stack == s.stack && t.mode in {Zero, Integer, Fraction} && Completes(t, j)
    ensures j.bytes != [] && (j.bytes[0] == DOT ==> t.mode.Fraction?) && (t.mode != Zero ==> NoDigit(j.bytes))
  {
    hide Step, ScanFrom, Completes, Took;
    First(s, i);
    NumberSteps(s, i.bytes[0]);
    if i.bytes[0] == DOT {
      var p, k := Scanner(Point, s.stack), Next(i);
      First(p, k);
      DigitSteps(p, k.bytes[0]);
      t := Scanner(Fraction, s.stack);
      fraction, j := ParseSomeDigits(p, t, k);
      TookBoth(i, [DOT], k, fraction, j);
    } else {
      fraction, t, j := [], s, i;
      TookNothing(i);
    }
  }

  /** The digits of an exponent, from a state that takes the first of them. */
  lemma ParseExponentDigits(s: Scanner, i: Input) returns (exponent: Bytes, j: Input)
    requires Completes(s, i) && s.stack != [] && i.bytes != []
    requires IsDigit(i.bytes[0]) && Step(s, i.bytes[0]) == Scanner(ExponentDigits, s.stack)
    ensures Digits(exponent) && Took(i, exponent, j) && Remains(s.stack, j)
  {
    hide Step, ScanFrom, Completes, Took, Remains;
    var t := Scanner(ExponentDigits, s.stack);
    exponent, j := ParseSomeDigits(s, t, i);
    NumberSteps(t, j.bytes[0]);
    NumberEnds(t, j);
  }

  lemma ParseSign(stack: seq<Frame>, i: Input) returns (sign: Bytes, exponent: Bytes, j: Input)
    requires Completes(Scanner(Exponent, stack), i) && stack != []
    ensures sign in {[], [PLUS], [MINUS]} && Digits(exponent)
    ensures Took(i, sign + exponent, j) && Remains(stack, j)
  {
    hide Step, ScanFrom, Completes, Took, Remains, Digits;
    var e := Scanner(Exponent, stack);
    First(e, i);
    DigitSteps(e, i.bytes[0]);
    if i.bytes[0] == PLUS || i.bytes[0] == MINUS {
      var t, k := Scanner(ExponentSign, stack), Next(i);
      sign := [i.bytes[0]];
      First(t, k);
      DigitSteps(t, k.bytes[0]);
      exponent, j := ParseExponentDigits(t, k);
      TookBoth(i, sign, k, exponent, j);
    } else {
      sign := [];
      exponent, j := ParseExponentDigits(e, i);
      TookNothing(i);
      TookBoth(i, sign, i, exponent, j);
    }
  }

  /** The exponent of a number, if it has one, and then the end of the number. */
  lemma ParseExponent(s: Scanner, i: Input) returns (mark: byte, sign: Bytes, exponent: Bytes, j: Input)
    requires Completes(s, i) && s.stack != [] && s.mode in {Zero, Integer, Fraction} && i.bytes != []
    requires (i.bytes[0] == DOT ==> s.mode.Fraction?) && (s.mode != Zero ==> NoDigit(i.bytes))
    ensures IsExponent(mark) && sign in {[], [PLUS], [MINUS]} && (exponent != [] ==> Digits(exponent))
    ensures Took(i, if exponent != [] then [mark] + sign + exponent else [], j) && Remains(s.stack, j)
  {
    hide Step, ScanFrom, Completes, Took, Remains, AfterValue;
    First(s, i);
    NumberSteps(s, i.bytes[0]);
    if IsExponent(i.bytes[0]) {
      mark := i.bytes[0];
      sign, exponent, j := ParseSign(s.stack, Next(i));
      TookBoth(i, [mark], Next(i), sign + exponent, j);
      assert [mark] + (sign + exponent) == [mark] + sign + exponent;
    } else {
      mark, sign, exponent, j := 0x65, [], [], i;
      assert Step(s, i.bytes[0]) == AfterValue(s.stack, i.bytes[0]) by {
        if i.bytes[0] == DOT { FractionThenPoint(s); }
      }
      NumberEnds(s, i);
      TookNothing(i);
    }
  }

  lemma FractionThenPoint(s: Scanner)
    requires s.mode.Fraction?
    ensures Step(s, DOT) == AfterValue(s.stack, DOT)
  {
  }

  lemma ParseWhole(s: Scanner, i: Input) returns (whole: Bytes, t: Scanner, j: Input)
    requires Completes(s, i) && s.mode in {BeginValue, Negative} && i.bytes != [] && IsDigit(i.bytes[0])
    ensures Digits(whole) && (whole[0] == 0x30 ==> |whole| == 1) && Took(i, whole, j)
    ensures t.stack == s.stack && t.mode in {Zero, Integer} && (t.mode.Integer? ==> NoDigit(j.bytes))
    ensures Completes(t, j)
  {
    hide Step, ScanFrom, Completes, Took;
    First(s, i);
    DigitSteps(s, i.bytes[0]);
    if i.bytes[0] == 0x30 {
      whole, t, j := [i.bytes[0]], Scanner(Zero, s.stack), Next(i);
    } else {
      t := Scanner(Integer, s.stack);
      whole, j := ParseSomeDigits(s, t, i);
    }
  }

  /** A number from its first digit on; `start` is where its sign, if any, was read. */
  lemma ParseUnsigned(start: Input, minus: bool, s: Scanner, i: Input) returns (x: Number, j: Input)
    requires s.stack != [] && s.mode in {BeginValue, Negative} && Completes(s, i)
    requires i.bytes != [] && IsDigit(i.bytes[0]) && Took(start, if minus then [MINUS] else [], i)
    ensures GoodNumber(x) && Took(start, NumberText(x), j) && Remains(s.stack, j)
  {
    hide Step, ScanFrom, Completes, Remains, Took, Digits;
    var whole, t, d := ParseWhole(s, i);
    var fraction, u, e := ParseFraction(t, d);
    var mark, sign, exponent;
    mark, sign, exponent, j := ParseExponent(u, e);
    x := Number(minus, whole, fraction, mark, sign, exponent);
    var m := if minus then [MINUS] else [];
    var f := if fraction != [] then [DOT] + fraction else [];
    var g := if exponent != [] then [mark] + sign + exponent else [];
    TookBoth(start, m, i, whole, d);
    TookBoth(start, m + whole, d, f, e);
    TookBoth(start, m + whole + f, e, g, j);
  }

  lemma ParseNumber(stack: seq<Frame>, i: Input) returns (x: Number, j: Input)
    requires stack != [] && Completes(Scanner(BeginValue, stack), i)
    requires i.bytes != [] && (i.bytes[0] == MINUS || IsDigit(i.bytes[0]))
    ensures GoodNumber(x) && Took(i, NumberText(x), j) && Remains(stack, j)
  {
    var s, t := Scanner(BeginValue, stack), Scanner(Negative, stack);
    assert Step(s, MINUS) == t;
    hide Step, ScanFrom, Completes, Remains, Took, GoodNumber, NumberText;
    First(s, i);
    if i.bytes[0] == MINUS {
      First(t, Next(i));
      DigitSteps(t, Next(i).bytes[0]);
      x, j := ParseUnsigned(i, true, t, Next(i));
    } else {
      TookNothing(i);
      x, j := ParseUnsigned(i, false, s, i);
    }
  }

  // ---------------------------------------------------------------- brackets

  /** What the scanner does where an object, an array or one of their parts begins or ends. */
  lemma BracketSteps(stack: seq<Frame>)
    ensures Step(Scanner(EndValue, stack + [ObjectValue]), COMMA) == Scanner(BeginKey, stack + [ObjectKey])
    ensures Step(Scanner(EndValue, stack + [ObjectValue]), CLOSE_BRACE) == Completed(stack)
    ensures Step(Scanner(EndValue, stack + [ArrayValue]), COMMA) == Scanner(BeginValue, stack + [ArrayValue])
    ensures Step(Scanner(EndValue, stack + [ArrayValue]), CLOSE_BRACKET) == Completed(stack)
    ensures Step(Scanner(EndValue, stack + [ObjectKey]), COLON) == Scanner(BeginValue, stack + [ObjectValue])
    ensures Step(Scanner(BeginKeyOrEnd, stack + [ObjectKey]), CLOSE_BRACE) == Completed(stack)
    ensures Step(Scanner(BeginValueOrEnd, stack + [ArrayValue]), CLOSE_BRACKET) == Completed(stack)
  {
    TopOf(stack, ObjectValue);
    TopOf(stack, ArrayValue);
    TopOf(stack, ObjectKey);
  }

  /** After the value of a member, only a comma or a closing brace goes on; after an element,
      only a comma or a closing bracket; after a key, only a colon; and where a key may begin,
      only a quote, or the closing brace of an empty object. */
  lemma OnlySteps(stack: seq<Frame>, c: byte)
    requires !IsSpace(c)
    ensures !Step(Scanner(EndValue, stack + [ObjectValue]), c).mode.Bad? ==> c == COMMA || c == CLOSE_BRACE
    ensures !Step(Scanner(EndValue, stack + [ArrayValue]), c).mode.Bad? ==> c == COMMA || c == CLOSE_BRACKET
    ensures !Step(Scanner(EndValue, stack + [ObjectKey]), c).mode.Bad? ==> c == COLON
    ensures !Step(Scanner(BeginKey, stack), c).mode.Bad? ==> c == QUOTE
    ensures !Step(Scanner(BeginKeyOrEnd, stack + [ObjectKey]), c).mode.Bad? ==> c == CLOSE_BRACE || c == QUOTE
  {
    TopOf(stack, ObjectValue);
    TopOf(stack, ArrayValue);
    TopOf(stack, ObjectKey);
  }

  /** Outside a bracket an opening bracket leads into it. */
  lemma OpeningSteps(stack: seq<Frame>)
    ensures Step(Scanner(BeginValue, stack), OPEN_BRACE) == Scanner(BeginKeyOrEnd, stack + [ObjectKey])
    ensures Step(Scanner(BeginValue, stack), OPEN_BRACKET) == Scanner(BeginValueOrEnd, stack + [ArrayValue])
  {
  }

  lemma BracketText(v: Value)
    ensures Text(v) == Inside(v) + Closing(v)
  {
    hide Inside, Closing;
  }

  /** The first element of an array begins like any value. */
  lemma FirstElement(stack: seq<Frame>, i: Input)
    requires Completes(Scanner(BeginValueOrEnd, stack), i)
    requires i.bytes != [] && !IsSpace(i.bytes[0]) && i.bytes[0] != CLOSE_BRACKET
    ensures Completes(Scanner(BeginValue, stack), i)
  {
    SameStart(stack, i.bytes);
    hide ScanFrom;
  }

  /** A closing bracket completes what `stack` surrounds. */
  lemma ParseClosing(s: Scanner, i: Input, stack: seq<Frame>) returns (j: Input)
    requires Completes(s, i) && i.bytes != [] && Step(s, i.bytes[0]) == Completed(stack)
    ensures Took(i, [i.bytes[0]], j) && Remains(stack, j)
  {
    hide Step, ScanFrom, Took;
    First(s, i);
    j := Next(i);
  }

  predicate BeginsKey(s: Scanner) {
    s.mode.BeginKey? || s.mode.BeginKeyOrEnd?
  }

  lemma KeyStep(s: Scanner)
    requires BeginsKey(s)
    ensures Step(s, QUOTE) == Scanner(InString, s.stack)
  {
  }

  /** One member, up to the comma or the closing brace after it. */
  lemma {:induction false} ParseMember(stack: seq<Frame>, s: Scanner, i: Input) returns (m: Member, j: Input)
    requires Completes(s, i) && BeginsKey(s) && s.stack == stack + [ObjectKey] && i.bytes != [] && i.bytes[0] == QUOTE
    ensures GoodMember(m) && Took(i, MemberText(m), j) && Completes(Scanner(EndValue, stack + [ObjectValue]), j)
    ensures j.bytes != [] && !IsSpace(j.bytes[0]) && |j.bytes| < |i.bytes|
    decreases |i.bytes|, 0
  {
    hide Step, ScanFrom, Completes, Took, GoodString, GoodValue, Text;
    KeyStep(s);
    var key, a := ParseQuoted(s, i);
    var atColon := Scanner(EndValue, s.stack);
    hide Remains;
    assert Completes(atColon, a) by { RemainsOf(s.stack, a); }
    var beforeColon, b := ParseBlank(atColon, a);
    First(atColon, b);
    OnlySteps(stack, b.bytes[0]);
    BracketSteps(stack);
    var inValue := stack + [ObjectValue];
    var afterColon, c := ParseBlank(Scanner(BeginValue, inValue), Next(b));
    var value, d := ParseValue(inValue, c);
    RemainsOf(inValue, d);
    var after;
    after, j := ParseBlank(Scanner(EndValue, inValue), d);
    m := Member(key, beforeColon, afterColon, value, after);
    hide Quoted;
    TookBoth(i, Quoted(key), a, beforeColon, b);
    TookBoth(i, Quoted(key) + beforeColon, b, [COLON], Next(b));
    TookBoth(i, Quoted(key) + beforeColon + [COLON], Next(b), afterColon, c);
    TookBoth(i, Quoted(key) + beforeColon + [COLON] + afterColon, c, Text(value), d);
    TookBoth(i, Quoted(key) + beforeColon + [COLON] + afterColon + Text(value), d, after, j);
  }

  lemma RemainsOf(stack: seq<Frame>, i: Input)
    requires stack != [] && Remains(stack, i)
    ensures Completes(Scanner(EndValue, stack), i)
  {
  }

  /** The members after the first one, up to the closing brace. */
  lemma {:induction false} ParseMembers(stack: seq<Frame>, i: Input) returns (ms: Members, j: Input)
    requires Completes(Scanner(EndValue, stack + [ObjectValue]), i) && i.bytes != [] && !IsSpace(i.bytes[0])
    ensures GoodMembers(ms) && Took(i, MembersText(ms), j) && Completes(Scanner(EndValue, stack + [ObjectValue]), j)
    ensures j.bytes != [] && j.bytes[0] == CLOSE_BRACE
    decreases |i.bytes|, 0
  {
    hide Step, ScanFrom, Completes, Took, GoodMember, MemberText;
    First(Scanner(EndValue, stack + [ObjectValue]), i);
    OnlySteps(stack, i.bytes[0]);
    BracketSteps(stack);
    if i.bytes[0] == COMMA {
      var s := Scanner(BeginKey, stack + [ObjectKey]);
      var before, a := ParseBlank(s, Next(i));
      First(s, a);
      OnlySteps(s.stack, a.bytes[0]);
      var member, b := ParseMember(stack, s, a);
      var more;
      more, j := ParseMembers(stack, b);
      ms := Members.Members(before, member, more);
      TookBoth(i, [COMMA], Next(i), before, a);
      TookBoth(i, [COMMA] + before, a, MemberText(member), b);
      TookBoth(i, [COMMA] + before + MemberText(member), b, MembersText(more), j);
    } else {
      ms, j := NoMembers, i;
      TookNothing(i);
    }
  }

  /** An object, with any stack below it. */
  lemma {:induction false} ParseObject(stack: seq<Frame>, i: Input) returns (v: Value, j: Input)
    requires Completes(Scanner(BeginValue, stack), i) && i.bytes != [] && i.bytes[0] == OPEN_BRACE
    ensures GoodValue(v) && IsObject(v) && Took(i, Text(v), j) && Remains(stack, j)
    decreases |i.bytes|, 0
  {
    hide Step, ScanFrom, Completes, Took, Remains, GoodMember, MemberText, GoodMembers, MembersText, Text;
    First(Scanner(BeginValue, stack), i);
    OpeningSteps(stack);
    var s := Scanner(BeginKeyOrEnd, stack + [ObjectKey]);
    var pad, a := ParseBlank(s, Next(i));
    First(s, a);
    OnlySteps(stack, a.bytes[0]);
    BracketSteps(stack);
    TookBoth(i, [OPEN_BRACE], Next(i), pad, a);
    if a.bytes[0] == CLOSE_BRACE {
      v := EmptyObject(pad);
      j := ParseClosing(s, a, stack);
      TookBoth(i, Inside(v), a, [CLOSE_BRACE], j);
      BracketText(v);
    } else {
      var member, b := ParseMember(stack, s, a);
      var members, c := ParseMembers(stack, b);
      v := Object(pad, member, members);
      j := ParseClosing(Scanner(EndValue, stack + [ObjectValue]), c, stack);
      TookBoth(i, [OPEN_BRACE] + pad, a, MemberText(member), b);
      TookBoth(i, [OPEN_BRACE] + pad + MemberText(member), b, MembersText(members), c);
      TookBoth(i, Inside(v), c, [CLOSE_BRACE], j);
      BracketText(v);
    }
  }

  /** The elements after the first one, up to the closing bracket. */
  lemma {:induction false} ParseElements(stack: seq<Frame>, i: Input) returns (es: Elements, j: Input)
    requires Completes(Scanner(EndValue, stack + [ArrayValue]), i) && i.bytes != [] && !IsSpace(i.bytes[0])
    ensures GoodElements(es) && Took(i, ElementsText(es), j) && Completes(Scanner(EndValue, stack + [ArrayValue]), j)
    ensures j.bytes != [] && j.bytes[0] == CLOSE_BRACKET
    decreases |i.bytes|, 0
  {
    hide Step, ScanFrom, Completes, Took, Remains, GoodValue, Text;
    var inner := stack + [ArrayValue];
    First(Scanner(EndValue, inner), i);
    OnlySteps(stack, i.bytes[0]);
    BracketSteps(stack);
    if i.bytes[0] == COMMA {
      var before, a := ParseBlank(Scanner(BeginValue, inner), Next(i));
      var value, b := ParseValue(inner, a);
      RemainsOf(inner, b);
      var after, c := ParseBlank(Scanner(EndValue, inner), b);
      var more;
      more, j := ParseElements(stack, c);
      es := Elements.Elements(before, value, after, more);
      TookBoth(i, [COMMA], Next(i), before, a);
      TookBoth(i, [COMMA] + before, a, Text(value), b);
      TookBoth(i, [COMMA] + before + Text(value), b, after, c);
      TookBoth(i, [COMMA] + before + Text(value) + after, c, ElementsText(more), j);
    } else {
      es, j := NoElements, i;
      TookNothing(i);
    }
  }

  lemma {:induction false} ParseArray(stack: seq<Frame>, i: Input) returns (v: Value, j: Input)
    requires Completes(Scanner(BeginValue, stack), i) && i.bytes != [] && i.bytes[0] == OPEN_BRACKET
    ensures GoodValue(v) && (v.EmptyArray? || v.Array?) && Took(i, Text(v), j) && Remains(stack, j)
    decreases |i.bytes|, 0
  {
    hide Step, ScanFrom, Completes, Took, Remains, ElementsText, GoodElements, Text;
    First(Scanner(BeginValue, stack), i);
    OpeningSteps(stack);
    var inner := stack + [ArrayValue];
    var s := Scanner(BeginValueOrEnd, inner);
    var pad, a := ParseBlank(s, Next(i));
    BracketSteps(stack);
    TookBoth(i, [OPEN_BRACKET], Next(i), pad, a);
    if a.bytes[0] == CLOSE_BRACKET {
      v := EmptyArray(pad);
      j := ParseClosing(s, a, stack);
      TookBoth(i, Inside(v), a, [CLOSE_BRACKET], j);
      BracketText(v);
    } else {
      FirstElement(inner, a);
      var head, b := ParseValue(inner, a);
      RemainsOf(inner, b);
      var after, c := ParseBlank(Scanner(EndValue, inner), b);
      var more, d := ParseElements(stack, c);
      v := Array(pad, head, after, more);
      j := ParseClosing(Scanner(EndValue, inner), d, stack);
      TookBoth(i, [OPEN_BRACKET] + pad, a, Text(head), b);
      TookBoth(i, [OPEN_BRACKET] + pad + Text(head), b, after, c);
      TookBoth(i, [OPEN_BRACKET] + pad + Text(head) + after, c, ElementsText(more), d);
      TookBoth(i, Inside(v), d, [CLOSE_BRACKET], j);
      BracketText(v);
    }
  }

  /** A value inside a bracket. */
  lemma {:induction false} ParseValue(stack: seq<Frame>, i: Input) returns (v: Value, j: Input)
    requires stack != [] && Completes(Scanner(BeginValue, stack), i) && i.bytes != [] && !IsSpace(i.bytes[0])
    ensures GoodValue(v) && Took(i, Text(v), j) && Remains(stack, j)
    ensures |j.bytes| <= |i.bytes|
    decreases |i.bytes|, 1
  {
    hide Step, ScanFrom, Completes, Remains, Took, GoodValue, Text;
    var c := i.bytes[0];
    if c == OPEN_BRACE {
      v, j := ParseObject(stack, i);
    } else if c == OPEN_BRACKET {
      v, j := ParseArray(stack, i);
    } else if c == QUOTE {
      v, j := ParseStr(stack, i);
    } else if c == MINUS || IsDigit(c) {
      v, j := ParseNum(stack, i);
    } else {
      v, j := ParseLiteral(stack, i);
    }
    TookLess(i, Text(v), j);
  }

  lemma TookLess(i: Input, text: Bytes, j: Input)
    requires Took(i, text, j)
    ensures |j.bytes| <= |i.bytes|
  {
  }

  lemma ScalarText(v: Value)
    requires v.Literal? || v.Num? || v.Str?
    ensures Text(v) == Inside(v)
  {
    hide Inside;
    assert Inside(v) + [] == Inside(v);
  }

  lemma ParseStr(stack: seq<Frame>, i: Input) returns (v: Value, j: Input)
    requires Completes(Scanner(BeginValue, stack), i) && i.bytes != [] && i.bytes[0] == QUOTE
    ensures GoodValue(v) && v.Str? && Took(i, Text(v), j) && Remains(stack, j)
  {
    assert Step(Scanner(BeginValue, stack), QUOTE) == Scanner(InString, stack);
    hide Step, ScanFrom, Completes, Remains, Took, GoodString, Quoted, Text;
    var body;
    body, j := ParseQuoted(Scanner(BeginValue, stack), i);
    v := Str(body);
    ScalarText(v);
  }

  lemma ParseNum(stack: seq<Frame>, i: Input) returns (v: Value, j: Input)
    requires stack != [] && Completes(Scanner(BeginValue, stack), i)
    requires i.bytes != [] && (i.bytes[0] == MINUS || IsDigit(i.bytes[0]))
    ensures GoodValue(v) && Took(i, Text(v), j) && Remains(stack, j)
  {
    hide Step, ScanFrom, Completes, Remains, Took, GoodNumber, NumberText, Text;
    var x;
    x, j := ParseNumber(stack, i);
    v := Num(x);
    ScalarText(v);
  }

  lemma ParseLiteral(stack: seq<Frame>, i: Input) returns (v: Value, j: Input)
    requires Completes(Scanner(BeginValue, stack), i) && i.bytes != []
    requires !IsSpace(i.bytes[0]) && i.bytes[0] !in {OPEN_BRACE, OPEN_BRACKET, QUOTE, MINUS} && !IsDigit(i.bytes[0])
    ensures GoodValue(v) && v.Literal? && Took(i, Text(v), j) && Remains(stack, j)
  {
    var c := i.bytes[0];
    First(Scanner(BeginValue, stack), i);
    assert LiteralTail(c) != [] && Step(Scanner(BeginValue, stack), c) == Scanner(InLiteral(LiteralTail(c)), stack);
    hide Step, ScanFrom, Completes, Remains, Took, LiteralTail, Text;
    j := ParseLetters(stack, LiteralTail(c), Next(i));
    v := Literal(c);
    TookBoth(i, [c], Next(i), LiteralTail(c), j);
    ScalarText(v);
  }

  lemma ObjectRead(b: Bytes, n: nat) returns (v: Value)
    requires b != [] && b[0] == OPEN_BRACE && n <= |b| && ScanFrom(START, b) == Complete(n)
    ensures GoodValue(v) && IsObject(v) && Text(v) == b[..n]
  {
    hide Step, ScanFrom, GoodValue, Text;
    var j;
    v, j := ParseObject([], Input(b, n));
    assert b == Text(v) + j.bytes && |Text(v)| == n;
  }

  lemma ObjectScanned(v: Value, b: Bytes, n: nat)
    requires GoodValue(v) && IsObject(v) && n <= |b| && Text(v) == b[..n]
    ensures ScanFrom(START, b) == Complete(n)
  {
    hide Step, ScanFrom, GoodValue, Text;
    ObjectIsComplete(v);
    ScanAppend(START, b[..n], b[n..]);
    assert b[..n] + b[n..] == b;
  }

  /** The scanner completes an object after `n` bytes exactly if those bytes are the text of an
      object of the grammar. */
  lemma ObjectsExactly(b: Bytes, n: nat)
    requires b != [] && b[0] == OPEN_BRACE && n <= |b|
    ensures ScanFrom(START, b) == Complete(n) <==> exists v :: GoodValue(v) && IsObject(v) && Text(v) == b[..n]
  {
    hide Step, ScanFrom, GoodValue, Text;
    if ScanFrom(START, b) == Complete(n) {
      var v := ObjectRead(b, n);
    }
    if v :| GoodValue(v) && IsObject(v) && Text(v) == b[..n] {
      ObjectScanned(v, b, n);
    }
  }
}
