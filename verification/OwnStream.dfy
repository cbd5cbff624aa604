/** When a request is judged by the stream that it caused.

    The partial buffer outlives a request, so what an earlier stream left unfinished is put before
    the next one. This module says exactly when that makes no difference, and what can happen when
    it does: the process can end although the new stream is fine, and an error object that the new
    stream holds can be swallowed. */
module OwnStream {
  import opened JsonScanner
  import opened Framing
  import opened JsonGrammar
  import opened Outside
  import opened DockerLogWriter
  import opened BuildContext
  import opened Trace
  import opened Soundness
  import opened Retries
  import opened Runs
  import opened Theorems

  // ---------------------------------------------------------------- what is left over matters

  const EMPTY_TEXT: Bytes := [OPEN_BRACE, CLOSE_BRACE]

  lemma EmptyObjectFrames()
    ensures FramesOf(EMPTY_TEXT).values == [EMPTY_TEXT]
  {
    var none: Bytes := [];
    var v := EmptyObject(none);
    assert Inside(v) == [OPEN_BRACE] && Text(v) == EMPTY_TEXT;
    assert GoodValue(v);
    hide Text, FramesOf;
    FramesOfObject(v, []);
    FramesUnfold([]);
    assert EMPTY_TEXT + [] == EMPTY_TEXT;
  }

  /** After an unfinished value the empty object is not read for what it is. */
  lemma LeftoverSpoilsEmptyObject(r: Bytes)
    requires FramesOf(r) == Frames([], r, false) && !Blank(r)
    ensures FramesOf(r + EMPTY_TEXT).values != [EMPTY_TEXT]
  {
    hide FramesOf, Decode;
    FramesUnfold(r);
    FramesUnfold(r + EMPTY_TEXT);
    DecodeTails(r);
    var d := Decode(r + EMPTY_TEXT);
    if d.Value? {
      FirstValueIsLonger(r);
      assert ([d.text] + FramesOf(d.rest).values)[0] == d.text;
    }
  }

  lemma FirstValueIsLonger(r: Bytes)
    requires Decode(r).UnexpectedEnd? && Decode(r + EMPTY_TEXT).Value?
    ensures Decode(r + EMPTY_TEXT).text != EMPTY_TEXT
  {
    SkipSpaceAppend(r, EMPTY_TEXT);
    var t := SkipSpace(r);
    ScanAppend(START, t, EMPTY_TEXT);
    var text := Decode(r + EMPTY_TEXT).text;
    hide ScanFrom, SkipSpace;
    assert |t| < |text| && text[|t|] == OPEN_BRACE;
  }

  /** What a stream leaves unfinished makes no difference to any later stream exactly if it is
      blank. */
  lemma HarmlessExactly(r: Bytes)
    requires FramesOf(r) == Frames([], r, false)
    ensures Blank(r) <==> forall x :: FramesOf(r + x).values == FramesOf(x).values
  {
    hide FramesOf;
    if Blank(r) {
      forall x ensures FramesOf(r + x).values == FramesOf(x).values {
        FramesAfterBlank(r, x);
      }
    } else {
      EmptyObjectFrames();
      LeftoverSpoilsEmptyObject(r);
    }
  }

  // ---------------------------------------------------------------- requests in a trace

  /** All the bytes streamed in a trace. */
  function Streamed(env: Env, t: seq<Event>): Bytes {
    Flatten(ChunksOf(env, t))
  }

  /** The values in the bytes that the request at `j` streamed, taken alone. */
  function OwnValues(env: Env, j: nat): seq<Bytes> {
    FramesOf(Flatten(env.container(j).chunks)).values
  }

  /** The bytes streamed so far end on a value boundary. */
  ghost predicate AtBoundary(env: Env, t: seq<Event>) {
    Blank(FramesOf(Streamed(env, t)).rest)
  }

  /** The request had no error from the runtime, and its own stream holds no error object. */
  ghost predicate OwnClean(env: Env, j: nat) {
    env.container(j).err.None? && forall v | v in OwnValues(env, j) :: !IsError(env, v)
  }

  /** The same world, but for what the request at `j` is answered. */
  function Answering(env: Env, j: nat, reply: ContainerReply): Env {
    env.(container := (n: nat) => if n == j then reply else env.container(n))
  }

  lemma {:induction false} ChunksBefore(env: Env, j: nat, reply: ContainerReply, t: seq<Event>)
    requires |t| <= j
    ensures ChunksOf(Answering(env, j, reply), t) == ChunksOf(env, t)
    decreases |t|
  {
    if t != [] {
      ChunksBefore(env, j, reply, t[..|t| - 1]);
    }
  }

  /** The values that a request completes are those in what was left over joined with its own
      stream. */
  lemma NewlyCompletedFrom(env: Env, t: seq<Event>, j: nat)
    requires j < |t| && Streams(t[j]) && !FramesOf(Streamed(env, t[..j])).halted
    ensures NewlyCompleted(env, t, j) ==
            FramesOf(FramesOf(Streamed(env, t[..j])).rest + Flatten(env.container(j).chunks)).values
  {
    hide FramesOf, ChunksOf;
    var a, own := Streamed(env, t[..j]), Flatten(env.container(j).chunks);
    assert t[..j + 1] == t[..j] + [t[j]];
    Snoc(env, "", t[..j], t[j]);
    FlattenAppend(ChunksOf(env, t[..j]), env.container(j).chunks);
    FramesAppend(a, own);
    var f, g := FramesOf(a), FramesOf(FramesOf(a).rest + own);
    assert (f.values + g.values)[|f.values|..] == g.values;
  }

  /** A request completes just the values of its own stream, whatever that stream is, exactly if
      the bytes before it end on a value boundary. */
  lemma OwnStreamExactly(env: Env, t: seq<Event>, j: nat)
    requires j < |t| && Streams(t[j]) && !FramesOf(Streamed(env, t[..j])).halted
    ensures AtBoundary(env, t[..j]) <==>
            forall reply :: NewlyCompleted(Answering(env, j, reply), t, j) == FramesOf(Flatten(reply.chunks)).values
  {
    hide FramesOf, ChunksOf, NewlyCompleted;
    var r := FramesOf(Streamed(env, t[..j])).rest;
    forall reply
      ensures NewlyCompleted(Answering(env, j, reply), t, j) == FramesOf(r + Flatten(reply.chunks)).values
    {
      ChunksBefore(env, j, reply, t[..j]);
      NewlyCompletedFrom(Answering(env, j, reply), t, j);
    }
    RestIsUnfinished(Streamed(env, t[..j]));
    HarmlessExactly(r);
    if !AtBoundary(env, t[..j]) {
      EmptyObjectFrames();
      LeftoverSpoilsEmptyObject(r);
      var reply := ContainerReply([EMPTY_TEXT], None);
      assert Flatten(reply.chunks) == EMPTY_TEXT by { FlattenSingle(EMPTY_TEXT); }
      assert NewlyCompleted(Answering(env, j, reply), t, j) == FramesOf(r + EMPTY_TEXT).values;
    }
  }

  /** After a value boundary a request is clean exactly if its own stream says so. */
  lemma CleanByOwnStream(env: Env, t: seq<Event>, j: nat)
    requires j < |t| && Streams(t[j]) && !FramesOf(Streamed(env, t[..j])).halted
    requires AtBoundary(env, t[..j])
    ensures NewlyCompleted(env, t, j) == OwnValues(env, j)
    ensures CleanCall(env, t, j) <==> OwnClean(env, j)
  {
    hide FramesOf, ChunksOf, IsError;
    NewlyCompletedFrom(env, t, j);
    FramesAfterBlank(FramesOf(Streamed(env, t[..j])).rest, Flatten(env.container(j).chunks));
    var before, after := Values(env, t[..j]), Values(env, t[..j + 1]);
    var own := OwnValues(env, j);
    ValuesGrow(env, t, j);
    hide Values, OwnValues;
    assert own == after[|before|..];
    if CleanCall(env, t, j) {
      forall v | v in own ensures !IsError(env, v) {
        var i :| 0 <= i < |own| && own[i] == v;
        assert after[|before| + i] == v;
      }
    }
    if OwnClean(env, j) {
      forall i | |before| <= i < |after| ensures !IsError(env, after[i]) {
        assert after[i] == own[i - |before|];
      }
    }
  }

  lemma ValuesGrow(env: Env, t: seq<Event>, j: nat)
    requires j < |t| && Streams(t[j]) && !FramesOf(Streamed(env, t[..j])).halted
    ensures |Values(env, t[..j])| <= |Values(env, t[..j + 1])|
  {
    hide FramesOf, ChunksOf;
    assert t[..j + 1] == t[..j] + [t[j]];
    Snoc(env, "", t[..j], t[j]);
    FlattenAppend(ChunksOf(env, t[..j]), env.container(j).chunks);
    FramesAppend(Streamed(env, t[..j]), Flatten(env.container(j).chunks));
  }

  // ---------------------------------------------------------------- retries and runs

  /** If every attempt starts on a value boundary, a retried request succeeds exactly if one of
      its attempts had no error from the runtime and no error object in its own stream. */
  lemma RetryDecidedByOwnStreams(env: Env, w: World, e: Event)
    requires Sound(env, w) && Streams(e) && !RetryResult(env, w, e).out.Halted?
    requires var t := RetryResult(env, w, e).w.link.trace;
             forall j | |w.link.trace| <= j < |t| && Streams(t[j]) :: AtBoundary(env, t[..j])
    ensures var r, from := RetryResult(env, w, e), |w.link.trace|;
            var t := r.w.link.trace;
            r.out.Returned? <==> exists j :: from <= j < |t| && Streams(t[j]) && OwnClean(env, j)
  {
    hide RetryFrom, CleanCall, OwnClean, AtBoundary, Sound, Keeps, Streamed;
    var r, from := RetryResult(env, w, e), |w.link.trace|;
    var t := r.w.link.trace;
    RetryDecidedByStream(env, w, e);
    var tries := RetryFacts(env, w, e, 0);
    RequestsUndecided(env, w, r.w, false);
    forall j | from <= j < |t| && Streams(t[j]) ensures CleanCall(env, t, j) <==> OwnClean(env, j) {
      CleanByOwnStream(env, t, j);
    }
    forall j: nat | CleanCall(env, t, j) ensures j < |t| && Streams(t[j]) {
      CleanStreams(env, t, j);
    }
  }

  /** Nothing is requested of the container runtime once framing has given up. */
  lemma RequestsUndecided(env: Env, w: World, v: World, halted: bool)
    requires Keeps(env, w, v, halted)
    ensures var t := v.link.trace;
            forall j: nat | j < |t| && Streams(t[j]) :: !FramesOf(Streamed(env, t[..j])).halted
  {
    hide FramesOf, PiecesOf, Ledger, LogEntries, Entries, Values, ChunksOf;
    var t := v.link.trace;
    forall j: nat | j < |t| && Streams(t[j]) ensures !FramesOf(Streamed(env, t[..j])).halted {
      assert !PiecesOf([], ChunksOf(env, t[..j])).halted by {
        if !halted { PiecesBefore(env, t, j); }
      }
      PiecesTrack(ChunksOf(env, t[..j]));
    }
  }

  /** In every run: what a request after a value boundary is judged by is its own stream. */
  lemma RunJudgedByOwnStreams(env: Env, args: BuildArgs, l: Link, j: nat)
    requires Registered(l) && j < |FinalTrace(env, args, l)| && Streams(FinalTrace(env, args, l)[j])
    requires AtBoundary(env, FinalTrace(env, args, l)[..j])
    ensures NewlyCompleted(env, FinalTrace(env, args, l), j) == OwnValues(env, j)
    ensures CleanCall(env, FinalTrace(env, args, l), j) <==> OwnClean(env, j)
  {
    hide RunResult, Keeps, AtBoundary, CleanCall, OwnClean, NewlyCompleted, OwnValues;
    RunFacts(env, args, l);
    var r := RunResult(env, NewBuilder(l), args);
    RequestsUndecided(env, NewBuilder(l).w, r.b.w, r.out.Halted?);
    CleanByOwnStream(env, r.b.w.link.trace, j);
  }

  // ---------------------------------------------------------------- a stream that is cut off

  /** A request that is cut off inside a value, and its retry: if the bytes kept and the new
      stream are together malformed the process ends; if they hold no complete value the retry
      succeeds. What the new stream holds does not matter otherwise. */
  lemma RetryAfterCutOff(env: Env, w: World, e: Event, cut: Bytes, x: Bytes, message: string)
    requires w.writer.partial == [] && FramesOf(cut) == Frames([], cut, false) && !Blank(cut)
    requires env.container(|w.link.trace|) == ContainerReply([cut], Some(message))
    requires env.container(|w.link.trace| + 1) == ContainerReply([x], None)
    ensures FramesOf(cut + x).halted ==> RetryResult(env, w, e).out == Halted
    ensures !FramesOf(cut + x).halted && FramesOf(cut + x).values == [] ==> RetryResult(env, w, e).out == Returned(())
  {
    hide FramesOf, PiecesOf, StreamResult, Blank;
    var w1 := Emit(ForgetError(w), e);
    TwoPieces(cut, []);
    StreamIsProcessed(env, w1, [cut]);
    var r := RequestResult(env, ForgetError(w), e);
    assert r == Did(WithPartial(w1, cut), Failed(Plain(message)));
    var w2 := Emit(ForgetError(ForgetError(r.w)), e);
    OnePiece(cut, x);
    StreamIsProcessed(env, w2, [x]);
    var again := RequestResult(env, ForgetError(ForgetError(r.w)), e);
    assert FramesOf(cut + x).halted ==> again.out == Halted;
    assert !FramesOf(cut + x).halted && FramesOf(cut + x).values == [] ==>
      again.out == Returned(()) && again.w.writer.err == None;
    hide RequestResult;
    assert RetryFrom(env, ForgetError(r.w), e, 1).out == RetryResult(env, w, e).out;
  }

  lemma OnePiece(carry: Bytes, x: Bytes)
    ensures var f := FramesOf(carry + x);
            PiecesOf(carry, [x]) == Frames(f.values, Keep(f.rest), f.halted)
  {
    hide FramesOf, Keep;
    assert [x][..0] == [];
    assert PiecesOf(carry, [x][..0]) == Frames([], carry, false);
  }

  /** The object {"a":1}. */
  const SAMPLE: Value := Object([], Member([0x61], [], [], Num(Number(false, [0x31], [], 0x65, [], [])), []), NoMembers)

  const SAMPLE_TEXT: Bytes := [OPEN_BRACE, QUOTE, 0x61, QUOTE, COLON, 0x31, CLOSE_BRACE]

  /** Its first three bytes: inside the key. */
  const INSIDE_KEY: Bytes := [OPEN_BRACE, QUOTE, 0x61]

  /** Its first five bytes: just after the colon. */
  const AFTER_COLON: Bytes := [OPEN_BRACE, QUOTE, 0x61, QUOTE, COLON]

  lemma SampleText()
    ensures Text(SAMPLE) == SAMPLE_TEXT && GoodValue(SAMPLE)
  {
    var x := Number(false, [0x31], [], 0x65, [], []);
    assert NumberText(x) == [0x31];
    assert Text(Num(x)) == [0x31];
    assert Quoted([0x61]) == [QUOTE, 0x61, QUOTE];
    assert GoodString([0x61]) by { assert [0x61 as byte][1..] == []; }
  }

  lemma InsideKeyScan()
    ensures ScanFrom(START, INSIDE_KEY) == Pending(Scanner(InString, [ObjectKey]))
  {
    var key, s := Scanner(BeginKeyOrEnd, [ObjectKey]), Scanner(InString, [ObjectKey]);
    assert [] + [ObjectKey] == [ObjectKey];
    OneByte(START, OPEN_BRACE);
    OneByte(key, QUOTE);
    OneByte(s, 0x61);
    hide Step, ScanFrom;
    Then(START, [OPEN_BRACE], key, [QUOTE], s);
    Then(START, [OPEN_BRACE] + [QUOTE], s, [0x61], s);
    assert INSIDE_KEY == [OPEN_BRACE] + [QUOTE] + [0x61];
  }

  lemma AfterColonScan()
    ensures ScanFrom(START, AFTER_COLON) == Pending(Scanner(BeginValue, [ObjectValue]))
  {
    var s, e, v := Scanner(InString, [ObjectKey]), Scanner(EndValue, [ObjectKey]), Scanner(BeginValue, [ObjectValue]);
    OneByte(s, QUOTE);
    assert [] + [ObjectKey] == [ObjectKey] && [] + [ObjectValue] == [ObjectValue];
    ColonStep([]);
    OneByte(e, COLON);
    InsideKeyScan();
    hide Step, ScanFrom;
    Then(START, INSIDE_KEY, s, [QUOTE], e);
    Then(START, INSIDE_KEY + [QUOTE], e, [COLON], v);
    assert AFTER_COLON == INSIDE_KEY + [QUOTE] + [COLON];
  }

  /** {"a{"a":1}: the second quote ends the key, and no colon follows. */
  lemma SpoiltScan()
    ensures ScanFrom(START, INSIDE_KEY + SAMPLE_TEXT) == Stuck
  {
    var s, e := Scanner(InString, [ObjectKey]), Scanner(EndValue, [ObjectKey]);
    OneByte(s, OPEN_BRACE);
    OneByte(s, QUOTE);
    assert Step(e, 0x61).mode.Bad?;
    InsideKeyScan();
    hide Step;
    Then(s, [OPEN_BRACE], s, [QUOTE], e);
    Then(START, INSIDE_KEY, s, [OPEN_BRACE] + [QUOTE], e);
    var rest := SAMPLE_TEXT[2..];
    assert ScanFrom(e, rest) == Stuck;
    hide ScanFrom;
    ScanAppend(START, INSIDE_KEY + ([OPEN_BRACE] + [QUOTE]), rest);
    assert INSIDE_KEY + SAMPLE_TEXT == INSIDE_KEY + ([OPEN_BRACE] + [QUOTE]) + rest;
  }

  lemma StuckFrames(b: Bytes)
    requires b != [] && !IsSpace(b[0]) && ScanFrom(START, b) == Stuck
    ensures FramesOf(b).halted
  {
    hide ScanFrom;
  }

  /** One way to be spoilt: the same complete object that is fine on its own is malformed after a
      stream that was cut off inside a key. */
  lemma CutOffStreamSpoilsTheNext()
    ensures PiecesOf([], [SAMPLE_TEXT]) == Frames([SAMPLE_TEXT], [], false)
    ensures PiecesOf([], [INSIDE_KEY]) == Frames([], INSIDE_KEY, false)
    ensures PiecesOf(INSIDE_KEY, [SAMPLE_TEXT]).halted
  {
    SampleText();
    InsideKeyScan();
    SpoiltScan();
    hide ScanFrom, PiecesOf, Text;
    FramesOfObject(SAMPLE, []);
    FramesUnfold([]);
    assert Text(SAMPLE) + [] == SAMPLE_TEXT;
    UnfinishedFrames(INSIDE_KEY, Scanner(InString, [ObjectKey]));
    assert !Blank(INSIDE_KEY);
    StuckFrames(INSIDE_KEY + SAMPLE_TEXT);
    hide FramesOf;
    TwoPieces(SAMPLE_TEXT, []);
    TwoPieces(INSIDE_KEY, []);
    OnePiece(INSIDE_KEY, SAMPLE_TEXT);
  }

  /** Another way: after a stream that was cut off behind a colon every object is swallowed. It is
      taken for the value of the member that was cut off, and nothing is complete. */
  lemma CutOffStreamSwallowsTheNext(v: Value)
    requires GoodValue(v)
    ensures PiecesOf([], [AFTER_COLON]) == Frames([], AFTER_COLON, false)
    ensures PiecesOf(AFTER_COLON, [Text(v)]) == Frames([], AFTER_COLON + Text(v), false)
  {
    hide ScanFrom, PiecesOf, Text;
    AfterColonScan();
    var t := OverValue(v, [ObjectValue]);
    Then(START, AFTER_COLON, Scanner(BeginValue, [ObjectValue]), Text(v), t);
    UnfinishedFrames(AFTER_COLON, Scanner(BeginValue, [ObjectValue]));
    UnfinishedFrames(AFTER_COLON + Text(v), t);
    assert !IsSpace(AFTER_COLON[0]) && !IsSpace((AFTER_COLON + Text(v))[0]);
    hide FramesOf;
    TwoPieces(AFTER_COLON, []);
    OnePiece(AFTER_COLON, Text(v));
  }

  lemma KeptWhole(b: Bytes)
    requires b != [] && !IsSpace(b[0]) && FramesOf(b).values == []
    ensures !Blank(b) && FramesOf(b).rest == b
  {
    FramesUnfoldEmpty(b);
  }

  /** So a retry can end the process although its own attempt streams one complete object. */
  lemma RetryHaltsAfterCutOff(env: Env, w: World, e: Event, message: string)
    requires w.writer.partial == []
    requires env.container(|w.link.trace|) == ContainerReply([INSIDE_KEY], Some(message))
    requires env.container(|w.link.trace| + 1) == ContainerReply([SAMPLE_TEXT], None)
    ensures RetryResult(env, w, e).out == Halted
  {
    CutOffStreamSpoilsTheNext();
    hide FramesOf, PiecesOf, RetryFrom;
    OnePiece(INSIDE_KEY, SAMPLE_TEXT);
    TwoPieces(INSIDE_KEY, []);
    KeptWhole(INSIDE_KEY);
    RetryAfterCutOff(env, w, e, INSIDE_KEY, SAMPLE_TEXT, message);
  }

  /** And a retry can succeed although its own attempt streams just one complete error object. */
  lemma RetrySwallowsError(env: Env, w: World, e: Event, message: string, v: Value)
    requires w.writer.partial == [] && GoodValue(v) && IsObject(v)
    requires env.container(|w.link.trace|) == ContainerReply([AFTER_COLON], Some(message))
    requires env.container(|w.link.trace| + 1) == ContainerReply([Text(v)], None)
    requires IsError(env, Text(v))
    ensures RetryResult(env, w, e).out == Returned(())
    ensures OwnValues(env, |w.link.trace| + 1) == [Text(v)] && !OwnClean(env, |w.link.trace| + 1)
  {
    CutOffStreamSwallowsTheNext(v);
    hide FramesOf, PiecesOf, RetryFrom, Text, IsError;
    OnePiece(AFTER_COLON, Text(v));
    TwoPieces(AFTER_COLON, []);
    KeptWhole(AFTER_COLON);
    RetryAfterCutOff(env, w, e, AFTER_COLON, Text(v), message);
    FramesOfObject(v, []);
    FramesUnfold([]);
    FlattenSingle(Text(v));
    assert Text(v) + [] == Text(v);
    assert Text(v) in OwnValues(env, |w.link.trace| + 1);
  }
}
