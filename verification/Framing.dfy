/** How a buffer of bytes splits into complete JSON values and an unfinished remainder, and how
    that split behaves when the same bytes arrive in pieces. */
module Framing {
  import opened JsonScanner

  /** What one call of the decoder makes of the bytes it has buffered. */
  datatype Decoded =
    | Value(text: Bytes, rest: Bytes)  // a complete value without the whitespace before it
    | EndOfInput                       // io.EOF: nothing but whitespace is left
    | UnexpectedEnd                    // io.ErrUnexpectedEOF: an unfinished value is left
    | Malformed                        // any other error

  predicate Blank(b: Bytes) {
    forall i | 0 <= i < |b| :: IsSpace(b[i])
  }

  function SkipSpace(b: Bytes): (r: Bytes)
    ensures |r| <= |b|
    ensures r == [] <==> Blank(b)
    ensures r != [] ==> !IsSpace(r[0])
  {
    if b != [] && IsSpace(b[0]) then SkipSpace(b[1..]) else b
  }

  /** Bytes that, without the whitespace before them, are exactly a whole number. */
  predicate BareNumber(b: Bytes) {
    var r := ScanFrom(START, SkipSpace(b));
    r.Pending? && r.at.stack == [] && WholeNumber(r.at.mode)
  }

  /** A number broken off after its point or its exponent mark: not whole, and not an error. */
  predicate BrokenNumber(b: Bytes) {
    var r := ScanFrom(START, SkipSpace(b));
    r.Pending? && r.at.stack == [] && (r.at.mode.Point? || r.at.mode.Exponent? || r.at.mode.ExponentSign?)
  }

  function Decode(b: Bytes): (d: Decoded)
    ensures d.Value? ==> d.text != [] && |d.text| + |d.rest| <= |b|
  {
    var t := SkipSpace(b);
    if t == [] then EndOfInput
    else
      match ScanFrom(START, t)
      case Complete(n) => Value(t[..n], t[n..])
      case Stuck => Malformed
      case Pending(_) => if BareNumber(b) then Malformed else UnexpectedEnd
  }

  /** The complete values of a buffer in order, the bytes after the last of them, and whether
      the decoder gave up on those bytes. */
  datatype Frames = Frames(values: seq<Bytes>, rest: Bytes, halted: bool)

  function FramesOf(b: Bytes): (f: Frames)
    ensures |f.rest| <= |b|
    ensures f.values == [] ==> f.rest == b
    decreases |b|
  {
    match Decode(b)
    case Value(text, rest) =>
      var f := FramesOf(rest);
      f.(values := [text] + f.values)
    case EndOfInput => Frames([], b, false)
    case UnexpectedEnd => Frames([], b, false)
    case Malformed => Frames([], b, true)
  }

  /** What is kept for the next call: an unfinished value with the whitespace before it, but
      never whitespace alone. */
  function Keep(rest: Bytes): Bytes {
    if Blank(rest) then [] else rest
  }

  // ---------------------------------------------------------------- one more piece of input

  lemma {:induction false} SkipSpaceAppend(a: Bytes, b: Bytes)
    ensures Blank(a) ==> SkipSpace(a + b) == SkipSpace(b)
    ensures !Blank(a) ==> SkipSpace(a + b) == SkipSpace(a) + b
    decreases |a|
  {
    hide Step;
    if a == [] {
      assert a + b == b;
    } else if IsSpace(a[0]) {
      assert (a + b)[1..] == a[1..] + b;
      assert Blank(a) <==> Blank(a[1..]) by {
        if Blank(a[1..]) {
          forall i | 0 <= i < |a| ensures IsSpace(a[i]) {
            if i > 0 { assert a[i] == a[1..][i - 1]; }
          }
        }
      }
      SkipSpaceAppend(a[1..], b);
    }
  }

  lemma {:induction false} DecodeAppend(a: Bytes, b: Bytes)
    ensures Decode(a).Value? ==> Decode(a + b) == Value(Decode(a).text, Decode(a).rest + b)
    ensures Decode(a).Malformed? && !BareNumber(a) ==> Decode(a + b).Malformed? && !BareNumber(a + b)
  {
    hide Step;
    var t := SkipSpace(a);
    if t != [] {
      SkipSpaceAppend(a, b);
      ScanAppend(START, t, b);
      match ScanFrom(START, t)
      case Complete(n) =>
        assert (t + b)[..n] == t[..n];
        assert (t + b)[n..] == t[n..] + b;
      case _ =>
    }
  }

  lemma FramesUnfold(b: Bytes)
    ensures Decode(b).Value? ==>
              var f := FramesOf(Decode(b).rest);
              FramesOf(b) == Frames([Decode(b).text] + f.values, f.rest, f.halted)
    ensures !Decode(b).Value? ==> FramesOf(b) == Frames([], b, Decode(b).Malformed?)
  {
    hide SkipSpace, ScanFrom;
  }

  /** Framing composes: the values of `a + b` are those of `a`, followed by those of what `a`
      left over joined with `b`. */
  lemma {:induction false} FramesAppend(a: Bytes, b: Bytes)
    requires !FramesOf(a).halted
    ensures var f, g := FramesOf(a), FramesOf(FramesOf(a).rest + b);
            FramesOf(a + b) == Frames(f.values + g.values, g.rest, g.halted)
    decreases |a|
  {
    hide FramesOf, Decode;
    FramesUnfold(a);
    DecodeAppend(a, b);
    if Decode(a).Value? {
      var text, rest := Decode(a).text, Decode(a).rest;
      FramesUnfold(a + b);
      FramesAppend(rest, b);
      var f, g := FramesOf(rest), FramesOf(FramesOf(rest).rest + b);
      assert [text] + (f.values + g.values) == ([text] + f.values) + g.values;
    }
  }

  /** Whitespace put before a buffer changes nothing but the remainder of a buffer that holds
      no complete value. */
  lemma FramesAfterBlank(w: Bytes, b: Bytes)
    requires Blank(w)
    ensures var f, g := FramesOf(w + b), FramesOf(b);
            && f.values == g.values
            && f.halted == g.halted
            && f.rest == if g.values == [] then w + b else g.rest
  {
    SkipSpaceAppend(w, b);
    hide ScanFrom, SkipSpace, FramesOf;
    SameDecoding(w + b, b);
    FramesUnfold(w + b);
    FramesUnfold(b);
  }

  /** The decoder does not look at the whitespace before a value. */
  lemma SameDecoding(a: Bytes, b: Bytes)
    requires SkipSpace(a) == SkipSpace(b)
    ensures Decode(a) == Decode(b)
  {
    hide ScanFrom, SkipSpace;
  }

  /** The states of a bare number: whatever follows, the scan either stays among them or fails. */
  predicate InNumber(s: Scanner) {
    s.stack == [] && (WholeNumber(s.mode) || s.mode in {Point, Exponent, ExponentSign})
  }

  lemma {:induction false} NumberForever(s: Scanner, b: Bytes)
    requires InNumber(s)
    ensures var r := ScanFrom(s, b); r.Stuck? || (r.Pending? && InNumber(r.at))
    decreases |b|
  {
    if b != [] {
      var t := Step(s, b[0]);
      if !t.mode.Bad? {
        NumberForever(t, b[1..]);
      }
    }
  }

  /** Once framing has given up, more input yields no further value; it can only turn a bare
      number into a broken one. */
  lemma {:induction false} FramesAfterHalt(a: Bytes, b: Bytes)
    requires FramesOf(a).halted
    ensures var f, h := FramesOf(a), FramesOf(a + b);
            && h.values == f.values
            && h.rest == f.rest + b
            && (!h.halted ==> BareNumber(f.rest) && BrokenNumber(h.rest))
    decreases |a|
  {
    hide Step;
    DecodeAppend(a, b);
    match Decode(a)
    case Value(text, rest) =>
      FramesAfterHalt(rest, b);
    case EndOfInput =>
    case UnexpectedEnd =>
    case Malformed =>
      if BareNumber(a) {
        SkipSpaceAppend(a, b);
        ScanAppend(START, SkipSpace(a), b);
        NumberForever(ScanFrom(START, SkipSpace(a)).at, b);
      }
  }

  /** A buffer that was itself left over holds no value, so any value found after `b` is added
      ends inside `b`. */
  lemma RestAfterValue(a: Bytes, b: Bytes)
    requires FramesOf(a) == Frames([], a, false)
    requires FramesOf(a + b).values != []
    ensures |FramesOf(a + b).rest| < |b|
  {
    hide FramesOf, Decode;
    FramesUnfold(a);
    FramesUnfold(a + b);
    ValueEndsInside(a, b);
  }

  lemma ValueEndsInside(a: Bytes, b: Bytes)
    requires !Decode(a).Value? && !Decode(a).Malformed? && Decode(a + b).Value?
    ensures |Decode(a + b).rest| < |b|
  {
    SkipSpaceAppend(a, b);
    ScanAppend(START, SkipSpace(a), b);
    hide ScanFrom, SkipSpace;
  }

  // ---------------------------------------------------------------- many pieces of input

  function Flatten(chunks: seq<Bytes>): Bytes {
    if chunks == [] then []
    else Flatten(chunks[..|chunks| - 1]) + chunks[|chunks| - 1]
  }

  /** The same framing when the bytes come in pieces after `carry`, keeping between two pieces
      only what `Keep` keeps, and stopping at the first piece that cannot be decoded. */
  function PiecesOf(carry: Bytes, chunks: seq<Bytes>): (f: Frames)
    decreases |chunks|
  {
    if chunks == [] then Frames([], carry, false)
    else
      var p := PiecesOf(carry, chunks[..|chunks| - 1]);
      if p.halted then p
      else
        var f := FramesOf(p.rest + chunks[|chunks| - 1]);
        Frames(p.values + f.values, Keep(f.rest), f.halted)
  }

  lemma {:induction false} PiecesAppend(carry: Bytes, xs: seq<Bytes>, ys: seq<Bytes>)
    requires !PiecesOf(carry, xs).halted
    ensures var p := PiecesOf(carry, xs);
            var q := PiecesOf(p.rest, ys);
            PiecesOf(carry, xs + ys) == Frames(p.values + q.values, q.rest, q.halted)
    decreases |ys|
  {
    hide FramesOf, Keep;
    if ys == [] {
      assert xs + ys == xs;
    } else {
      var n := |ys| - 1;
      assert (xs + ys)[..|xs + ys| - 1] == xs + ys[..n];
      assert (xs + ys)[|xs + ys| - 1] == ys[n];
      PiecesAppend(carry, xs, ys[..n]);
    }
  }

  lemma {:induction false} PiecesHaltedPrefix(carry: Bytes, chunks: seq<Bytes>, n: nat)
    requires n <= |chunks|
    requires PiecesOf(carry, chunks[..n]).halted
    ensures PiecesOf(carry, chunks) == PiecesOf(carry, chunks[..n])
    decreases |chunks|
  {
    hide Step;
    if n == |chunks| {
      assert chunks[..n] == chunks;
    } else {
      assert chunks[..|chunks| - 1][..n] == chunks[..n];
      PiecesHaltedPrefix(carry, chunks[..|chunks| - 1], n);
    }
  }

  lemma {:induction false} FlattenAppend(xs: seq<Bytes>, ys: seq<Bytes>)
    ensures Flatten(xs + ys) == Flatten(xs) + Flatten(ys)
    decreases |ys|
  {
    if ys == [] {
      assert xs + ys == xs;
    } else {
      var n := |ys| - 1;
      assert (xs + ys)[..|xs + ys| - 1] == xs + ys[..n];
      FlattenAppend(xs, ys[..n]);
    }
  }

  /** All the input as one single piece. */
  function Whole(chunks: seq<Bytes>): Frames {
    PiecesOf([], [Flatten(chunks)])
  }

  lemma WholeIsFrames(chunks: seq<Bytes>)
    ensures var f := FramesOf(Flatten(chunks));
            Whole(chunks) == Frames(f.values, Keep(f.rest), f.halted)
  {
    hide Step;
    var one := [Flatten(chunks)];
    assert one[..0] == [];
    assert PiecesOf([], one[..0]) == Frames([], [], false);
    assert [] + Flatten(chunks) == Flatten(chunks);
  }

  /** A piece ends right after a whole bare number that the following bytes go on to break off
      after its point or exponent mark. */
  ghost predicate NumberCut(chunks: seq<Bytes>) {
    && BrokenNumber(FramesOf(Flatten(chunks)).rest)
    && exists k :: 0 < k < |chunks| && CutAfterNumber(chunks, k)
  }

  ghost predicate CutAfterNumber(chunks: seq<Bytes>, k: nat)
    requires k < |chunks|
  {
    var f := FramesOf(Flatten(chunks[..k]));
    f.halted && BareNumber(f.rest)
  }

  /** A piece ends after some of the whitespace that separates the last complete value from the
      unfinished one, and before the second byte of the unfinished one. */
  ghost predicate BlankCut(chunks: seq<Bytes>) {
    exists k :: 0 < k < |chunks| && CutInBlank(chunks, k)
  }

  ghost predicate CutInBlank(chunks: seq<Bytes>, k: nat)
    requires k < |chunks|
  {
    var all := Flatten(chunks);
    var tail := FramesOf(all).rest;
    var start := |all| - |tail|;
    var cut := |Flatten(chunks[..k])|;
    !Blank(tail) && start < cut <= start + |tail| - |SkipSpace(tail)|
  }

  lemma {:induction false} RestIsUnfinished(b: Bytes)
    requires !FramesOf(b).halted
    ensures var r := FramesOf(b).rest; FramesOf(r) == Frames([], r, false)
    decreases |b|
  {
    hide Decode;
    if Decode(b).Value? {
      RestIsUnfinished(Decode(b).rest);
    }
  }

  /** What the pieces kept, against the remainder of the whole: the same bytes, but for some
      whitespace at the front. */
  ghost predicate Tracks(kept: Bytes, rest: Bytes) {
    && |kept| <= |rest|
    && rest == rest[..|rest| - |kept|] + kept
    && Blank(rest[..|rest| - |kept|])
    && (Blank(kept) ==> kept == [])
  }

  lemma BlankAppend(a: Bytes, b: Bytes)
    ensures Blank(a + b) <==> Blank(a) && Blank(b)
  {
    if Blank(a + b) {
      forall i | 0 <= i < |a| ensures IsSpace(a[i]) { assert a[i] == (a + b)[i]; }
      forall i | 0 <= i < |b| ensures IsSpace(b[i]) { assert b[i] == (a + b)[|a| + i]; }
    }
  }

  /** One more piece keeps the two in step. */
  lemma TracksStep(kept: Bytes, rest: Bytes, x: Bytes)
    requires Tracks(kept, rest)
    ensures var g, h := FramesOf(kept + x), FramesOf(rest + x);
            && g.values == h.values
            && g.halted == h.halted
            && Tracks(Keep(g.rest), h.rest)
  {
    hide FramesOf;
    var d := rest[..|rest| - |kept|];
    assert rest + x == d + (kept + x);
    FramesAfterBlank(d, kept + x);
    var g, h := FramesOf(kept + x), FramesOf(rest + x);
    var lead := if g.values == [] then d else [];
    assert g.values == [] ==> g.rest == kept + x by { FramesUnfoldEmpty(kept + x); }
    assert h.rest == lead + g.rest;
    BlankAppend(lead, g.rest);
    if Blank(g.rest) {
      assert h.rest[..|h.rest|] == h.rest;
    } else {
      assert h.rest[..|h.rest| - |g.rest|] == lead;
    }
  }

  lemma FramesUnfoldEmpty(b: Bytes)
    ensures FramesOf(b).values == [] ==> FramesOf(b).rest == b
  {
  }

  lemma {:induction false} PiecesTrack(chunks: seq<Bytes>)
    requires !PiecesOf([], chunks).halted
    ensures var p, f := PiecesOf([], chunks), FramesOf(Flatten(chunks));
            p.values == f.values && !f.halted && Tracks(p.rest, f.rest)
    decreases |chunks|
  {
    assert Tracks([], []);
    hide FramesOf, Keep, Tracks;
    if chunks == [] {
      FramesUnfold([]);
    } else {
      var cs, x := chunks[..|chunks| - 1], chunks[|chunks| - 1];
      PiecesTrack(cs);
      var f := FramesOf(Flatten(cs));
      FramesAppend(Flatten(cs), x);
      TracksStep(PiecesOf([], cs).rest, f.rest, x);
    }
  }

  lemma CutPosition(chunks: seq<Bytes>, k: nat)
    requires k < |chunks|
    ensures chunks[..|chunks| - 1][..k] == chunks[..k]
    ensures |Flatten(chunks[..k])| <= |Flatten(chunks[..|chunks| - 1])|
    ensures |Flatten(chunks)| == |Flatten(chunks[..|chunks| - 1])| + |chunks[|chunks| - 1]|
  {
    var cs := chunks[..|chunks| - 1];
    FlattenAppend(cs[..k], cs[k..]);
    assert cs[..k] + cs[k..] == cs;
  }

  /** The unfinished value continues from one piece to the next: the cuts that count are the
      same as before, and the one just made if nothing but whitespace was left over. */
  lemma BlankCutStep(chunks: seq<Bytes>)
    requires chunks != []
    requires var cs, all := chunks[..|chunks| - 1], Flatten(chunks);
             var r := FramesOf(Flatten(cs)).rest;
             FramesOf(all).rest == r + chunks[|chunks| - 1] && !Blank(FramesOf(all).rest)
    ensures var cs := chunks[..|chunks| - 1];
            var r := FramesOf(Flatten(cs)).rest;
            BlankCut(chunks) <==> if Blank(r) then r != [] else BlankCut(cs)
  {
    hide FramesOf;
    var cs, x := chunks[..|chunks| - 1], chunks[|chunks| - 1];
    var r := FramesOf(Flatten(cs)).rest;
    SkipSpaceAppend(r, x);
    forall k | 0 < k < |chunks|
      ensures CutInBlank(chunks, k) <==>
              if Blank(r) then r != [] && |Flatten(chunks[..k])| > |Flatten(cs)| - |r|
              else k < |cs| && CutInBlank(cs, k)
    {
      CutPosition(chunks, k);
    }
    if Blank(r) && r != [] {
      assert CutInBlank(chunks, |cs|);
    } else if !Blank(r) && BlankCut(cs) {
      var k :| 0 < k < |cs| && CutInBlank(cs, k);
      assert CutInBlank(chunks, k);
    }
  }

  lemma {:induction false} BlankCutExact(chunks: seq<Bytes>)
    requires !PiecesOf([], chunks).halted
    requires !Blank(FramesOf(Flatten(chunks)).rest)
    ensures PiecesOf([], chunks).rest == FramesOf(Flatten(chunks)).rest <==> !BlankCut(chunks)
    decreases |chunks|
  {
    hide FramesOf;
    if chunks == [] {
      FramesUnfold([]);
    } else {
      var cs, x := chunks[..|chunks| - 1], chunks[|chunks| - 1];
      var kept, r := PiecesOf([], cs).rest, FramesOf(Flatten(cs)).rest;
      PiecesTrack(cs);
      FramesAppend(Flatten(cs), x);
      var d := r[..|r| - |kept|];
      assert r + x == d + (kept + x);
      FramesAfterBlank(d, kept + x);
      if FramesOf(kept + x).values == [] {
        BlankCutStep(chunks);
        if Blank(r) {
          BlankAppend(d, kept);
        } else {
          BlankCutExact(cs);
        }
        assert kept + x == r + x <==> kept == r;
      } else {
        KeptIsUnfinished(cs);
        RestAfterValue(kept, x);
        forall k | 0 < k < |chunks| ensures !CutInBlank(chunks, k) {
          CutPosition(chunks, k);
        }
      }
    }
  }

  lemma KeptIsUnfinished(chunks: seq<Bytes>)
    requires !PiecesOf([], chunks).halted
    ensures var k := PiecesOf([], chunks).rest; FramesOf(k) == Frames([], k, false)
  {
    FramesUnfold([]);
    if chunks != [] {
      RestIsUnfinished(PiecesOf([], chunks[..|chunks| - 1]).rest + chunks[|chunks| - 1]);
    }
  }

  /** The first piece that cannot be decoded is one that ends where the whole input up to there
      cannot be decoded either. */
  lemma {:induction false} FirstHalt(chunks: seq<Bytes>) returns (k: nat)
    requires PiecesOf([], chunks).halted
    ensures 0 < k <= |chunks|
    ensures PiecesOf([], chunks) == PiecesOf([], chunks[..k])
    ensures FramesOf(Flatten(chunks[..k])).halted
    ensures FramesOf(Flatten(chunks[..k])).values == PiecesOf([], chunks).values
    decreases |chunks|
  {
    hide FramesOf;
    var n := |chunks| - 1;
    var cs, x := chunks[..n], chunks[n];
    if PiecesOf([], cs).halted {
      k := FirstHalt(cs);
      assert cs[..k] == chunks[..k];
    } else {
      k := |chunks|;
      assert chunks[..k] == chunks;
      PiecesTrack(cs);
      FramesAppend(Flatten(cs), x);
      TracksStep(PiecesOf([], cs).rest, FramesOf(Flatten(cs)).rest, x);
    }
  }

  lemma HaltedPieces(chunks: seq<Bytes>)
    requires PiecesOf([], chunks).halted
    ensures var f := FramesOf(Flatten(chunks));
            f.values == PiecesOf([], chunks).values && (!f.halted ==> NumberCut(chunks))
  {
    hide FramesOf, PiecesOf;
    var k := FirstHalt(chunks);
    FlattenAppend(chunks[..k], chunks[k..]);
    assert chunks[..k] + chunks[k..] == chunks;
    FramesAfterHalt(Flatten(chunks[..k]), Flatten(chunks[k..]));
    if k == |chunks| {
      assert chunks[..k] == chunks;
    } else if !FramesOf(Flatten(chunks)).halted {
      assert CutAfterNumber(chunks, k);
    }
  }

  lemma BrokenIsNotHalted(b: Bytes)
    requires BrokenNumber(FramesOf(b).rest)
    ensures !FramesOf(b).halted
    decreases |b|
  {
    hide ScanFrom, SkipSpace;
    if Decode(b).Value? {
      BrokenIsNotHalted(Decode(b).rest);
    }
  }

  lemma NumberCutHalts(chunks: seq<Bytes>)
    requires NumberCut(chunks)
    ensures PiecesOf([], chunks).halted && !FramesOf(Flatten(chunks)).halted
  {
    hide FramesOf, PiecesOf;
    BrokenIsNotHalted(Flatten(chunks));
    var k :| 0 < k < |chunks| && CutAfterNumber(chunks, k);
    if !PiecesOf([], chunks[..k]).halted {
      PiecesTrack(chunks[..k]);
    } else {
      PiecesHaltedPrefix([], chunks, k);
    }
  }

  /** Chunk invariance, for every byte string and every way to cut it into pieces.

      The complete values are the same ones in the same order, always. The decision to give up
      is the same exactly if no cut falls after a whole bare number that later bytes break off;
      streams of objects hold no bare number. What is left over is the same up to whitespace at
      the front, and the same byte for byte exactly if no cut falls in that whitespace. */
  lemma ChunkInvariance(chunks: seq<Bytes>)
    ensures var p, q := PiecesOf([], chunks), Whole(chunks);
            && p.values == q.values
            && (p.halted == q.halted <==> !NumberCut(chunks))
            && (!p.halted ==> !q.halted && SkipSpace(p.rest) == SkipSpace(q.rest))
            && (!p.halted ==> (p.rest == q.rest <==> !BlankCut(chunks)))
  {
    hide FramesOf, PiecesOf, NumberCut, BlankCut, Whole;
    WholeIsFrames(chunks);
    var p, f := PiecesOf([], chunks), FramesOf(Flatten(chunks));
    if NumberCut(chunks) {
      NumberCutHalts(chunks);
    }
    if p.halted {
      HaltedPieces(chunks);
    } else {
      PiecesTrack(chunks);
      SkipSpaceAppend(f.rest[..|f.rest| - |p.rest|], p.rest);
      if Blank(f.rest) {
        BlankAppend(f.rest[..|f.rest| - |p.rest|], p.rest);
        BlankCutNeedsValue(chunks);
      } else {
        BlankCutExact(chunks);
      }
    }
  }

  lemma BlankCutNeedsValue(chunks: seq<Bytes>)
    requires Blank(FramesOf(Flatten(chunks)).rest)
    ensures !BlankCut(chunks)
  {
  }

  // ---------------------------------------------------------------- the two conditions bite

  lemma TwoPieces(a: Bytes, b: Bytes)
    ensures Flatten([a, b]) == a + b
    ensures PiecesOf([], [a]) == Frames(FramesOf(a).values, Keep(FramesOf(a).rest), FramesOf(a).halted)
    ensures !FramesOf(a).halted ==>
              var f := FramesOf(Keep(FramesOf(a).rest) + b);
              PiecesOf([], [a, b]) == Frames(FramesOf(a).values + f.values, Keep(f.rest), f.halted)
    ensures FramesOf(a).halted ==> PiecesOf([], [a, b]).halted
  {
    hide FramesOf, Keep;
    assert [a, b][..1] == [a] && [a][..0] == [] && [a, b][1] == b;
    assert Flatten([a]) == [] + a == a;
    assert PiecesOf([], []) == Frames([], [], false);
    assert [] + a == a;
  }

  lemma ScanTwo(s: Scanner, c: byte, d: byte)
    requires var t := Step(s, c); !t.mode.Done? && !t.mode.Bad?
    requires var u := Step(Step(s, c), d); !u.mode.Done? && !u.mode.Bad?
    ensures ScanFrom(s, [c]) == Pending(Step(s, c))
    ensures ScanFrom(s, [c, d]) == Pending(Step(Step(s, c), d))
  {
    hide Step;
    assert [c][1..] == [] && [c, d][1..] == [d] && [d][1..] == [];
    assert ScanFrom(Step(s, c), [d]) == Pending(Step(Step(s, c), d));
  }

  lemma UnfinishedFrames(b: Bytes, s: Scanner)
    requires b != [] && !IsSpace(b[0]) && ScanFrom(START, b) == Pending(s)
    ensures SkipSpace(b) == b
    ensures FramesOf(b) == Frames([], b, s.stack == [] && WholeNumber(s.mode))
  {
    hide ScanFrom;
  }

  /** A space and then an open brace: in two pieces the space is dropped, in one it is kept. */
  lemma LeftoverDependsOnCuts()
    ensures PiecesOf([], [[0x20], [OPEN_BRACE]]).rest == [OPEN_BRACE]
    ensures Whole([[0x20], [OPEN_BRACE]]).rest == [0x20, OPEN_BRACE]
  {
    var a, b := [0x20 as byte], [OPEN_BRACE];
    ScanTwo(START, OPEN_BRACE, QUOTE);
    hide Step, ScanFrom, PiecesOf, Whole;
    UnfinishedFrames(b, Step(START, OPEN_BRACE));
    FramesAfterBlank(a, b);
    assert a + b == [0x20, OPEN_BRACE] && [] + b == b;
    BlankAppend(a, b);
    assert !Blank(b);
    FramesUnfold(a);
    hide FramesOf, Decode;
    TwoPieces(a, b);
    WholeIsFrames([a, b]);
  }

  /** The number 1 and then a point: the first piece alone already ends the process, the two
      together are an unfinished number. */
  lemma NumbersDependOnCuts()
    ensures PiecesOf([], [[0x31], [DOT]]).halted
    ensures !Whole([[0x31], [DOT]]).halted
  {
    var a, b := [0x31 as byte], [DOT];
    ScanTwo(START, 0x31, DOT);
    hide Step, ScanFrom, PiecesOf, Whole;
    UnfinishedFrames(a, Scanner(Integer, []));
    UnfinishedFrames(a + b, Scanner(Point, []));
    hide FramesOf;
    TwoPieces(a, b);
    WholeIsFrames([a, b]);
  }
}
