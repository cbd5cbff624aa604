/** The grammar of RFC 8259 as syntax trees, with every place where the grammar allows
    whitespace, and the proof that the scanner reads the text of every tree. */
module JsonGrammar {
  import opened JsonScanner
  import opened Framing

  datatype Number = Number(minus: bool, whole: Bytes, fraction: Bytes, mark: byte, sign: Bytes, exponent: Bytes)

  datatype Value =
    | Literal(first: byte)
    | Num(n: Number)
    | Str(body: Bytes)
    | EmptyArray(pad: Bytes)
    | Array(pad: Bytes, head: Value, after: Bytes, more: Elements)
    | EmptyObject(pad: Bytes)
    | Object(pad: Bytes, member: Member, members: Members)

  datatype Elements = NoElements | Elements(before: Bytes, value: Value, after: Bytes, more: Elements)

  datatype Member = Member(key: Bytes, beforeColon: Bytes, afterColon: Bytes, value: Value, after: Bytes)

  datatype Members = NoMembers | Members(before: Bytes, member: Member, more: Members)

  // ---------------------------------------------------------------- what the grammar allows

  predicate Digits(b: Bytes) {
    b != [] && forall i | 0 <= i < |b| :: IsDigit(b[i])
  }

  /** Section 6: no leading zero, digits after the point, digits after the exponent mark. */
  predicate GoodNumber(n: Number) {
    && Digits(n.whole) && (n.whole[0] == 0x30 ==> |n.whole| == 1)
    && (n.fraction != [] ==> Digits(n.fraction))
    && (n.exponent != [] ==> Digits(n.exponent))
    && IsExponent(n.mark) && n.sign in {[], [PLUS], [MINUS]}
  }

  /** Section 7: unescaped characters, two-character escapes, and \uXXXX. */
  predicate GoodString(b: Bytes) {
    if b == [] then true
    else if b[0] == BACKSLASH then
      if |b| >= 2 && IsEscape(b[1]) then GoodString(b[2..])
      else |b| >= 6 && b[1] == 0x75 && IsHex(b[2]) && IsHex(b[3]) && IsHex(b[4]) && IsHex(b[5]) && GoodString(b[6..])
    else b[0] >= 0x20 && b[0] != QUOTE && GoodString(b[1..])
  }

  predicate GoodValue(v: Value) {
    match v
    case Literal(c) => LiteralTail(c) != []
    case Num(n) => GoodNumber(n)
    case Str(body) => GoodString(body)
    case EmptyArray(pad) => Blank(pad)
    case Array(pad, head, after, more) => Blank(pad) && GoodValue(head) && Blank(after) && GoodElements(more)
    case EmptyObject(pad) => Blank(pad)
    case Object(pad, member, members) => Blank(pad) && GoodMember(member) && GoodMembers(members)
  }

  predicate GoodElements(e: Elements) {
    e.Elements? ==> Blank(e.before) && GoodValue(e.value) && Blank(e.after) && GoodElements(e.more)
  }

  predicate GoodMember(m: Member) {
    GoodString(m.key) && Blank(m.beforeColon) && Blank(m.afterColon) && GoodValue(m.value) && Blank(m.after)
  }

  predicate GoodMembers(ms: Members) {
    ms.Members? ==> Blank(ms.before) && GoodMember(ms.member) && GoodMembers(ms.more)
  }

  predicate IsObject(v: Value) {
    v.EmptyObject? || v.Object?
  }

  // ---------------------------------------------------------------- the characters of the grammar

  function Characters(b: Bytes): string {
    if b == [] then "" else [b[0] as char] + Characters(b[1..])
  }

  /** The character classes that scanner and grammar share, in the characters of RFC 8259: sections
      2 and 3 for whitespace, structure and literal names, section 6 for numbers, section 7 for
      strings. */
  lemma CharacterClasses(c: byte)
    ensures IsSpace(c) <==> c as char in " \t\n\r"
    ensures IsDigit(c) <==> c as char in "0123456789"
    ensures IsHex(c) <==> c as char in "0123456789abcdefABCDEF"
    ensures IsEscape(c) <==> c as char in "\"\\/bfnrt"
    ensures IsExponent(c) <==> c as char in "eE"
    ensures LiteralTail(c) != [] <==> c as char in "tfn"
    ensures LiteralTail(c) != [] ==> Characters([c] + LiteralTail(c)) in {"true", "false", "null"}
    ensures Characters([OPEN_BRACE, CLOSE_BRACE, OPEN_BRACKET, CLOSE_BRACKET, COLON, COMMA]) == "{}[]:,"
    ensures Characters([QUOTE, BACKSLASH, MINUS, PLUS, DOT]) == "\"\\-+."
  {
    if LiteralTail(c) != [] {
      LiteralNames(c);
    }
    Spelled([OPEN_BRACE, CLOSE_BRACE, OPEN_BRACKET, CLOSE_BRACKET, COLON, COMMA], "{}[]:,");
    Spelled([QUOTE, BACKSLASH, MINUS, PLUS, DOT], "\"\\-+.");
  }

  lemma {:induction false} Spelled(b: Bytes, s: string)
    requires |b| == |s| && forall i | 0 <= i < |b| :: b[i] as char == s[i]
    ensures Characters(b) == s
    decreases |b|
  {
    if b != [] {
      Spelled(b[1..], s[1..]);
      assert s == [s[0]] + s[1..];
    }
  }

  lemma LiteralNames(c: byte)
    requires LiteralTail(c) != []
    ensures Characters([c] + LiteralTail(c)) in {"true", "false", "null"}
  {
    Spelled([c] + LiteralTail(c), if c == 0x74 then "true" else if c == 0x66 then "false" else "null");
  }

  // ---------------------------------------------------------------- the text of a tree

  function NumberText(n: Number): Bytes {
    (if n.minus then [MINUS] else []) + n.whole
    + (if n.fraction != [] then [DOT] + n.fraction else [])
    + (if n.exponent != [] then [n.mark] + n.sign + n.exponent else [])
  }

  function Quoted(body: Bytes): Bytes {
    [QUOTE] + body + [QUOTE]
  }

  /** The text of a value without its closing bracket. */
  function Inside(v: Value): Bytes
    decreases v, 0
  {
    match v
    case Literal(c) => [c] + LiteralTail(c)
    case Num(n) => NumberText(n)
    case Str(body) => Quoted(body)
    case EmptyArray(pad) => [OPEN_BRACKET] + pad
    case Array(pad, head, after, more) => [OPEN_BRACKET] + pad + Text(head) + after + ElementsText(more)
    case EmptyObject(pad) => [OPEN_BRACE] + pad
    case Object(pad, member, members) => [OPEN_BRACE] + pad + MemberText(member) + MembersText(members)
  }

  function Closing(v: Value): Bytes {
    match v
    case EmptyArray(_) => [CLOSE_BRACKET]
    case Array(_, _, _, _) => [CLOSE_BRACKET]
    case EmptyObject(_) => [CLOSE_BRACE]
    case Object(_, _, _) => [CLOSE_BRACE]
    case _ => []
  }

  function Text(v: Value): Bytes
    decreases v, 1
  {
    Inside(v) + Closing(v)
  }

  function ElementsText(e: Elements): Bytes {
    match e
    case NoElements => []
    case Elements(before, value, after, more) => [COMMA] + before + Text(value) + after + ElementsText(more)
  }

  function MemberText(m: Member): Bytes {
    Quoted(m.key) + m.beforeColon + [COLON] + m.afterColon + Text(m.value) + m.after
  }

  function MembersText(ms: Members): Bytes {
    match ms
    case NoMembers => []
    case Members(before, member, more) => [COMMA] + before + MemberText(member) + MembersText(more)
  }

  // ---------------------------------------------------------------- the scanner reads it

  predicate Goes(s: Scanner, b: Bytes, t: Scanner) {
    ScanFrom(s, b) == Pending(t)
  }

  lemma Then(s: Scanner, a: Bytes, t: Scanner, b: Bytes, u: Scanner)
    requires Goes(s, a, t) && Goes(t, b, u)
    ensures Goes(s, a + b, u)
  {
    ScanAppend(s, a, b);
  }

  lemma OneByte(s: Scanner, c: byte)
    ensures var t := Step(s, c); !t.mode.Done? && !t.mode.Bad? ==> Goes(s, [c], t)
  {
    hide Step;
    assert [c][1..] == [];
    assert ScanFrom(Step(s, c), []) == Pending(Step(s, c));
  }

  predicate SkipsSpace(s: Scanner) {
    s.mode in {BeginValue, BeginValueOrEnd, BeginKeyOrEnd, BeginKey} || (s.mode.EndValue? && s.stack != [])
  }

  lemma {:induction false} OverBlank(s: Scanner, w: Bytes)
    requires SkipsSpace(s) && Blank(w)
    ensures Goes(s, w, s)
    decreases |w|
  {
    if w != [] {
      assert Step(s, w[0]) == s;
      OverBlank(s, w[1..]);
    }
  }

  lemma {:induction false} OverDigits(s: Scanner, b: Bytes)
    requires s.mode in {Integer, Fraction, ExponentDigits}
    requires forall i | 0 <= i < |b| :: IsDigit(b[i])
    ensures Goes(s, b, s)
    decreases |b|
  {
    if b != [] {
      assert Step(s, b[0]) == s;
      OverDigits(s, b[1..]);
    }
  }

  lemma {:induction false} OverString(stack: seq<Frame>, b: Bytes)
    requires GoodString(b)
    ensures Goes(Scanner(InString, stack), b, Scanner(InString, stack))
    decreases |b|
  {
    var s := Scanner(InString, stack);
    if b != [] {
      if b[0] != BACKSLASH {
        OverString(stack, b[1..]);
      } else if IsEscape(b[1]) {
        OverString(stack, b[2..]);
        assert b[1..][1..] == b[2..];
      } else {
        OverString(stack, b[6..]);
        var h := b[2..6];
        OneByte(s, BACKSLASH);
        OneByte(Scanner(InEscape, stack), b[1]);
        OverHex(stack, h);
        Then(s, [BACKSLASH], Scanner(InEscape, stack), [b[1]], Scanner(InUnicode(4), stack));
        Then(s, [BACKSLASH] + [b[1]], Scanner(InUnicode(4), stack), h, s);
        Then(s, [BACKSLASH] + [b[1]] + h, s, b[6..], s);
        assert b == [BACKSLASH] + [b[1]] + h + b[6..];
      }
    }
  }

  lemma OverHex(stack: seq<Frame>, h: Bytes)
    requires |h| == 4 && forall i | 0 <= i < 4 :: IsHex(h[i])
    ensures Goes(Scanner(InUnicode(4), stack), h, Scanner(InString, stack))
  {
    var s := Scanner(InUnicode(4), stack);
    OneByte(s, h[0]);
    OneByte(Scanner(InUnicode(3), stack), h[1]);
    OneByte(Scanner(InUnicode(2), stack), h[2]);
    OneByte(Scanner(InUnicode(1), stack), h[3]);
    hide Step;
    Then(s, [h[0]], Scanner(InUnicode(3), stack), [h[1]], Scanner(InUnicode(2), stack));
    Then(s, [h[0]] + [h[1]], Scanner(InUnicode(2), stack), [h[2]], Scanner(InUnicode(1), stack));
    Then(s, [h[0]] + [h[1]] + [h[2]], Scanner(InUnicode(1), stack), [h[3]], Scanner(InString, stack));
    assert h == [h[0]] + [h[1]] + [h[2]] + [h[3]];
  }

  /** A value is complete inside a bracket: what follows is read as `AfterValue` says. */
  predicate Settled(s: Scanner, stack: seq<Frame>) {
    s.stack == stack && stack != [] && (s.mode.EndValue? || WholeNumber(s.mode))
  }

  lemma SettledByte(s: Scanner, stack: seq<Frame>, c: byte)
    requires Settled(s, stack) && (c in {COMMA, COLON, CLOSE_BRACKET, CLOSE_BRACE} || IsSpace(c))
    ensures Step(s, c) == AfterValue(stack, c)
  {
  }

  lemma SettledBlank(s: Scanner, stack: seq<Frame>, w: Bytes) returns (t: Scanner)
    requires Settled(s, stack) && Blank(w)
    ensures Goes(s, w, t) && Settled(t, stack)
  {
    if w == [] {
      t := s;
    } else {
      t := Scanner(EndValue, stack);
      SettledByte(s, stack, w[0]);
      OverBlank(t, w[1..]);
    }
  }

  /** Reading from a state in which a value or a key must start. */
  lemma OverQuoted(s: Scanner, body: Bytes)
    requires GoodString(body)
    requires s.stack != [] && s.mode in {BeginValue, BeginKeyOrEnd, BeginKey}
    ensures Goes(s, Quoted(body), Scanner(EndValue, s.stack))
  {
    var t := Scanner(InString, s.stack);
    OneByte(s, QUOTE);
    OneByte(t, QUOTE);
    OverString(s.stack, body);
    hide Step;
    Then(s, [QUOTE], t, body, t);
    Then(s, [QUOTE] + body, t, [QUOTE], Scanner(EndValue, s.stack));
  }

  lemma OverLiteral(stack: seq<Frame>, c: byte)
    requires stack != [] && LiteralTail(c) != []
    ensures Goes(Scanner(BeginValue, stack), [c] + LiteralTail(c), Scanner(EndValue, stack))
  {
    var tail := LiteralTail(c);
    OverLetters(stack, tail);
    OneByte(Scanner(BeginValue, stack), c);
    Then(Scanner(BeginValue, stack), [c], Scanner(InLiteral(tail), stack), tail, Scanner(EndValue, stack));
  }

  lemma {:induction false} OverLetters(stack: seq<Frame>, tail: Bytes)
    requires stack != [] && tail != []
    ensures Goes(Scanner(InLiteral(tail), stack), tail, Scanner(EndValue, stack))
    decreases |tail|
  {
    var s := Scanner(InLiteral(tail), stack);
    if |tail| == 1 {
      OneByte(s, tail[0]);
      assert tail == [tail[0]];
    } else {
      OverLetters(stack, tail[1..]);
    }
  }

  /** Digits from a state whose step on the first of them is `t`. */
  lemma DigitsFrom(s: Scanner, b: Bytes, t: Scanner)
    requires Digits(b) && Step(s, b[0]) == t
    requires t.mode in {Integer, Fraction, ExponentDigits}
    ensures Goes(s, b, t)
  {
    OverDigits(t, b[1..]);
  }

  lemma OverWhole(s: Scanner, b: Bytes) returns (t: Scanner)
    requires s.mode in {BeginValue, Negative}
    requires Digits(b) && (b[0] == 0x30 ==> |b| == 1)
    ensures Goes(s, b, t) && t in {Scanner(Zero, s.stack), Scanner(Integer, s.stack)}
  {
    if b[0] == 0x30 {
      t := Scanner(Zero, s.stack);
      OneByte(s, b[0]);
      assert b == [b[0]];
    } else {
      t := Scanner(Integer, s.stack);
      DigitsFrom(s, b, t);
    }
  }

  lemma OverFraction(s: Scanner, fraction: Bytes) returns (t: Scanner)
    requires s.mode in {Zero, Integer}
    requires fraction != [] ==> Digits(fraction)
    ensures Goes(s, if fraction != [] then [DOT] + fraction else [], t)
    ensures t.stack == s.stack && t.mode in {Zero, Integer, Fraction}
  {
    if fraction == [] {
      t := s;
    } else {
      t := Scanner(Fraction, s.stack);
      OneByte(s, DOT);
      DigitsFrom(Scanner(Point, s.stack), fraction, t);
      Then(s, [DOT], Scanner(Point, s.stack), fraction, t);
    }
  }

  lemma OverExponent(s: Scanner, n: Number) returns (t: Scanner)
    requires s.mode in {Zero, Integer, Fraction} && GoodNumber(n)
    ensures Goes(s, if n.exponent != [] then [n.mark] + n.sign + n.exponent else [], t)
    ensures t.stack == s.stack && WholeNumber(t.mode)
  {
    if n.exponent == [] {
      t := s;
    } else {
      var e := Scanner(Exponent, s.stack);
      var f := if n.sign == [] then e else Scanner(ExponentSign, s.stack);
      t := Scanner(ExponentDigits, s.stack);
      OneByte(s, n.mark);
      if n.sign != [] {
        OneByte(e, n.sign[0]);
      }
      DigitsFrom(f, n.exponent, t);
      Then(s, [n.mark], e, n.sign, f);
      Then(s, [n.mark] + n.sign, f, n.exponent, t);
    }
  }

  lemma OverNumber(stack: seq<Frame>, n: Number) returns (t: Scanner)
    requires stack != [] && GoodNumber(n)
    ensures Goes(Scanner(BeginValue, stack), NumberText(n), t) && Settled(t, stack)
  {
    var s := Scanner(BeginValue, stack);
    var minus := if n.minus then [MINUS] else [];
    var u := if n.minus then Scanner(Negative, stack) else s;
    if n.minus {
      OneByte(s, MINUS);
    }
    assert Goes(s, minus, u);
    hide Step, ScanFrom;
    var v := OverWhole(u, n.whole);
    var w := OverFraction(v, n.fraction);
    t := OverExponent(w, n);
    var fraction := if n.fraction != [] then [DOT] + n.fraction else [];
    var exponent := if n.exponent != [] then [n.mark] + n.sign + n.exponent else [];
    Then(s, minus, u, n.whole, v);
    Then(s, minus + n.whole, v, fraction, w);
    Then(s, minus + n.whole + fraction, w, exponent, t);
  }

  lemma TopOf(stack: seq<Frame>, f: Frame)
    ensures (stack + [f])[|stack + [f]| - 1] == f
    ensures Pop(stack + [f]) == Completed(stack)
    ensures forall g :: Replace(stack + [f], g) == stack + [g]
  {
    assert (stack + [f])[..|stack|] == stack;
  }

  lemma ColonStep(base: seq<Frame>)
    ensures Step(Scanner(EndValue, base + [ObjectKey]), COLON) == Scanner(BeginValue, base + [ObjectValue])
  {
    TopOf(base, ObjectKey);
  }

  lemma CommaStep(s: Scanner, base: seq<Frame>, f: Frame)
    requires f != ObjectKey && Settled(s, base + [f])
    ensures Goes(s, [COMMA], if f == ObjectValue then Scanner(BeginKey, base + [ObjectKey]) else Scanner(BeginValue, base + [ArrayValue]))
  {
    TopOf(base, f);
    SettledByte(s, base + [f], COMMA);
    assert AfterValue(base + [f], COMMA).mode in {BeginKey, BeginValue};
    OneByte(s, COMMA);
  }

  lemma CloseStep(s: Scanner, base: seq<Frame>, f: Frame)
    requires f != ObjectKey && Settled(s, base + [f])
    ensures Step(s, if f == ObjectValue then CLOSE_BRACE else CLOSE_BRACKET) == Completed(base)
  {
    TopOf(base, f);
    SettledByte(s, base + [f], if f == ObjectValue then CLOSE_BRACE else CLOSE_BRACKET);
  }

  /** An opening bracket, and the closing one of an empty pair. */
  lemma OpenStep(stack: seq<Frame>)
    ensures Goes(Scanner(BeginValue, stack), [OPEN_BRACE], Scanner(BeginKeyOrEnd, stack + [ObjectKey]))
    ensures Goes(Scanner(BeginValue, stack), [OPEN_BRACKET], Scanner(BeginValueOrEnd, stack + [ArrayValue]))
    ensures Step(Scanner(BeginKeyOrEnd, stack + [ObjectKey]), CLOSE_BRACE) == Completed(stack)
    ensures Step(Scanner(BeginValueOrEnd, stack + [ArrayValue]), CLOSE_BRACKET) == Completed(stack)
  {
    TopOf(stack, ObjectKey);
    TopOf(stack, ArrayValue);
    OneByte(Scanner(BeginValue, stack), OPEN_BRACE);
    OneByte(Scanner(BeginValue, stack), OPEN_BRACKET);
  }

  lemma FirstByte(v: Value)
    requires GoodValue(v)
    ensures Text(v) != [] && !IsSpace(Text(v)[0]) && Text(v)[0] != CLOSE_BRACKET
  {
  }

  /** The first element of an array starts like any other value. */
  lemma SameStart(stack: seq<Frame>, b: Bytes)
    requires b != [] && !IsSpace(b[0]) && b[0] != CLOSE_BRACKET
    ensures ScanFrom(Scanner(BeginValueOrEnd, stack), b) == ScanFrom(Scanner(BeginValue, stack), b)
  {
    assert Step(Scanner(BeginValueOrEnd, stack), b[0]) == Step(Scanner(BeginValue, stack), b[0]);
    hide Step;
  }

  lemma {:induction false} OverValue(v: Value, stack: seq<Frame>) returns (t: Scanner)
    requires GoodValue(v) && stack != []
    ensures Goes(Scanner(BeginValue, stack), Text(v), t) && Settled(t, stack)
    decreases v, 1
  {
    hide Step, ScanFrom, Goes;
    var s := Scanner(BeginValue, stack);
    match v
    case Literal(c) =>
      OverLiteral(stack, c);
      t := Scanner(EndValue, stack);
      assert Text(v) == Inside(v);
    case Num(n) =>
      t := OverNumber(stack, n);
      assert Text(v) == Inside(v);
    case Str(body) =>
      OverQuoted(s, body);
      t := Scanner(EndValue, stack);
      assert Text(v) == Inside(v);
    case EmptyArray(_) => t := OverClosing(v, stack);
    case Array(_, _, _, _) => t := OverClosing(v, stack);
    case EmptyObject(_) => t := OverClosing(v, stack);
    case Object(_, _, _) => t := OverClosing(v, stack);
  }

  lemma {:induction false} OverClosing(v: Value, stack: seq<Frame>) returns (t: Scanner)
    requires GoodValue(v) && Closing(v) != [] && stack != []
    ensures Goes(Scanner(BeginValue, stack), Text(v), t) && Settled(t, stack)
    decreases v, 0, 1
  {
    var u := OverInside(v, stack);
    t := Scanner(EndValue, stack);
    hide Step, ScanFrom, Goes, Inside;
    OneByte(u, Closing(v)[0]);
    Then(Scanner(BeginValue, stack), Inside(v), u, Closing(v), t);
  }

  /** A bracketed value up to its closing bracket, whatever is open around it. */
  lemma {:induction false} OverInside(v: Value, stack: seq<Frame>) returns (t: Scanner)
    requires GoodValue(v) && Closing(v) != []
    ensures Goes(Scanner(BeginValue, stack), Inside(v), t)
    ensures Step(t, Closing(v)[0]) == Completed(stack)
    decreases v, 0, 0
  {
    hide Step, ScanFrom, Goes;
    var s := Scanner(BeginValue, stack);
    var key, elem := Scanner(BeginKeyOrEnd, stack + [ObjectKey]), Scanner(BeginValueOrEnd, stack + [ArrayValue]);
    OpenStep(stack);
    OverBlank(key, v.pad);
    OverBlank(elem, v.pad);
    Then(s, [OPEN_BRACE], key, v.pad, key);
    Then(s, [OPEN_BRACKET], elem, v.pad, elem);
    match v
    case EmptyArray(pad) =>
      t := elem;
    case EmptyObject(pad) =>
      t := key;
    case Array(pad, head, after, more) =>
      var base := stack + [ArrayValue];
      var w := OverValue(head, base);
      FirstByte(head);
      SameStartGoes(base, Text(head), w);
      var x := SettledBlank(w, base, after);
      t := OverElements(more, x, stack);
      Then(s, [OPEN_BRACKET] + pad, elem, Text(head), w);
      Then(s, [OPEN_BRACKET] + pad + Text(head), w, after, x);
      Then(s, [OPEN_BRACKET] + pad + Text(head) + after, x, ElementsText(more), t);
      CloseStep(t, stack, ArrayValue);
    case Object(pad, member, members) =>
      var w := OverMember(member, key, stack);
      t := OverMembers(members, w, stack);
      Then(s, [OPEN_BRACE] + pad, key, MemberText(member), w);
      Then(s, [OPEN_BRACE] + pad + MemberText(member), w, MembersText(members), t);
      CloseStep(t, stack, ObjectValue);
  }

  lemma SameStartGoes(stack: seq<Frame>, b: Bytes, t: Scanner)
    requires b != [] && !IsSpace(b[0]) && b[0] != CLOSE_BRACKET
    requires Goes(Scanner(BeginValue, stack), b, t)
    ensures Goes(Scanner(BeginValueOrEnd, stack), b, t)
  {
    hide Step, ScanFrom;
    SameStart(stack, b);
  }

  lemma {:induction false} OverElements(e: Elements, s: Scanner, base: seq<Frame>) returns (t: Scanner)
    requires GoodElements(e) && Settled(s, base + [ArrayValue])
    ensures Goes(s, ElementsText(e), t) && Settled(t, base + [ArrayValue])
    decreases e
  {
    t := s;
    if e.Elements? {
      hide Step, ScanFrom, Goes;
      var stack := base + [ArrayValue];
      var u := Scanner(BeginValue, stack);
      CommaStep(s, base, ArrayValue);
      OverBlank(u, e.before);
      var w := OverValue(e.value, stack);
      var x := SettledBlank(w, stack, e.after);
      t := OverElements(e.more, x, base);
      Then(s, [COMMA], u, e.before, u);
      Then(s, [COMMA] + e.before, u, Text(e.value), w);
      Then(s, [COMMA] + e.before + Text(e.value), w, e.after, x);
      Then(s, [COMMA] + e.before + Text(e.value) + e.after, x, ElementsText(e.more), t);
    }
  }

  lemma {:induction false} OverMember(m: Member, s: Scanner, base: seq<Frame>) returns (t: Scanner)
    requires GoodMember(m) && s.stack == base + [ObjectKey] && s.mode in {BeginKeyOrEnd, BeginKey}
    ensures Goes(s, MemberText(m), t) && Settled(t, base + [ObjectValue])
    decreases m
  {
    hide Step, ScanFrom, Goes;
    var stack := base + [ObjectValue];
    var k, u := Scanner(EndValue, base + [ObjectKey]), Scanner(BeginValue, stack);
    OverQuoted(s, m.key);
    OverBlank(k, m.beforeColon);
    ColonStep(base);
    OneByte(k, COLON);
    OverBlank(u, m.afterColon);
    var w := OverValue(m.value, stack);
    t := SettledBlank(w, stack, m.after);
    var q := Quoted(m.key);
    Then(s, q, k, m.beforeColon, k);
    Then(s, q + m.beforeColon, k, [COLON], u);
    Then(s, q + m.beforeColon + [COLON], u, m.afterColon, u);
    Then(s, q + m.beforeColon + [COLON] + m.afterColon, u, Text(m.value), w);
    Then(s, q + m.beforeColon + [COLON] + m.afterColon + Text(m.value), w, m.after, t);
  }

  lemma {:induction false} OverMembers(ms: Members, s: Scanner, base: seq<Frame>) returns (t: Scanner)
    requires GoodMembers(ms) && Settled(s, base + [ObjectValue])
    ensures Goes(s, MembersText(ms), t) && Settled(t, base + [ObjectValue])
    decreases ms
  {
    t := s;
    if ms.Members? {
      hide Step, ScanFrom, Goes;
      var u := Scanner(BeginKey, base + [ObjectKey]);
      CommaStep(s, base, ObjectValue);
      OverBlank(u, ms.before);
      var w := OverMember(ms.member, u, base);
      t := OverMembers(ms.more, w, base);
      Then(s, [COMMA], u, ms.before, u);
      Then(s, [COMMA] + ms.before, u, MemberText(ms.member), w);
      Then(s, [COMMA] + ms.before + MemberText(ms.member), w, MembersText(ms.more), t);
    }
  }

  /** Every object of the grammar, and no proper prefix of it, is a complete value. */
  lemma ObjectIsComplete(v: Value)
    requires GoodValue(v) && IsObject(v)
    ensures ScanFrom(START, Text(v)) == Complete(|Text(v)|)
    ensures forall n | 0 <= n < |Text(v)| :: ScanFrom(START, Text(v)[..n]).Pending?
  {
    var t := OverInside(v, []);
    CompletesWith(t, CLOSE_BRACE);
    hide Step, ScanFrom, Inside;
    ScanAppend(START, Inside(v), Closing(v));
    forall n | 0 <= n < |Text(v)| ensures ScanFrom(START, Text(v)[..n]).Pending? {
      PrefixIsPending(START, Text(v), n);
    }
  }

  lemma CompletesWith(s: Scanner, c: byte)
    requires Step(s, c).mode.Done?
    ensures ScanFrom(s, [c]) == Complete(1)
  {
    hide Step;
  }

  // ---------------------------------------------------------------- a stream of objects

  predicate GoodStream(objects: seq<Value>, gaps: seq<Bytes>) {
    && |gaps| == |objects| + 1
    && (forall i | 0 <= i < |objects| :: GoodValue(objects[i]) && IsObject(objects[i]))
    && (forall i | 0 <= i < |gaps| :: Blank(gaps[i]))
  }

  /** The objects printed in order, with a gap of whitespace before each and one at the end. */
  function StreamText(objects: seq<Value>, gaps: seq<Bytes>): Bytes
    requires |gaps| == |objects| + 1
  {
    if objects == [] then gaps[0]
    else gaps[0] + (Text(objects[0]) + StreamText(objects[1..], gaps[1..]))
  }

  function Texts(objects: seq<Value>): seq<Bytes> {
    if objects == [] then [] else [Text(objects[0])] + Texts(objects[1..])
  }

  lemma FramesOfObject(v: Value, b: Bytes)
    requires GoodValue(v) && IsObject(v)
    ensures FramesOf(Text(v) + b) ==
            Frames([Text(v)] + FramesOf(b).values, FramesOf(b).rest, FramesOf(b).halted)
  {
    ObjectIsComplete(v);
    FirstByte(v);
    hide Step, ScanFrom, FramesOf, Text;
    ScanAppend(START, Text(v), b);
    assert SkipSpace(Text(v) + b) == Text(v) + b;
    assert (Text(v) + b)[..|Text(v)|] == Text(v) && (Text(v) + b)[|Text(v)|..] == b;
    FramesUnfold(Text(v) + b);
  }

  lemma {:induction false} FramesOfStream(objects: seq<Value>, gaps: seq<Bytes>)
    requires GoodStream(objects, gaps)
    ensures var f := FramesOf(StreamText(objects, gaps));
            f.values == Texts(objects) && !f.halted && Blank(f.rest)
    decreases |objects|
  {
    hide FramesOf, Text;
    if objects == [] {
      FramesAfterBlank(gaps[0], []);
      FramesUnfold([]);
      assert gaps[0] + [] == gaps[0];
    } else {
      var tail := StreamText(objects[1..], gaps[1..]);
      FramesOfStream(objects[1..], gaps[1..]);
      FramesOfObject(objects[0], tail);
      FramesAfterBlank(gaps[0], Text(objects[0]) + tail);
    }
  }

  /** Print, cut anywhere, frame: the texts of the objects come back, in order and no others,
      with nothing left over. */
  lemma PrintedStreamRoundTrip(objects: seq<Value>, gaps: seq<Bytes>, chunks: seq<Bytes>)
    requires GoodStream(objects, gaps)
    requires Flatten(chunks) == StreamText(objects, gaps)
    ensures PiecesOf([], chunks) == Frames(Texts(objects), [], false)
  {
    FramesOfStream(objects, gaps);
    BlankIsNotBroken(FramesOf(Flatten(chunks)).rest);
    hide FramesOf, PiecesOf, Whole, Text, BrokenNumber;
    WholeIsFrames(chunks);
    ChunkInvariance(chunks);
    PiecesTrackRest(chunks);
  }

  lemma BlankIsNotBroken(b: Bytes)
    requires Blank(b)
    ensures !BrokenNumber(b)
  {
  }

  lemma PiecesTrackRest(chunks: seq<Bytes>)
    requires Blank(FramesOf(Flatten(chunks)).rest) && !PiecesOf([], chunks).halted
    ensures PiecesOf([], chunks).rest == []
  {
    hide FramesOf, PiecesOf;
    PiecesTrack(chunks);
    var kept, rest := PiecesOf([], chunks).rest, FramesOf(Flatten(chunks)).rest;
    BlankAppend(rest[..|rest| - |kept|], kept);
  }
}
