/** The writer that turns the Docker daemon's byte stream into log entries. */
module DockerLogWriter {
  import opened JsonScanner
  import opened Framing
  import opened Outside
  import GrpcBuild

  // ---------------------------------------------------------------- the filter

  const MIN_PROGRESS_DELTA := 10_000_000
  const BUFFERING_STATUS := "Buffering to disk"
  const PUSHING_STATUS := "Pushing"

  datatype Filter = Filter(lastSent: Option<Response>)

  /** The receiver is passed by value, so remembering `resp` in it is lost on return. */
  predicate ShouldSkip(f: Filter, resp: Response) {
    match f.lastSent
    case None => false
    case Some(last) =>
      if resp.status == BUFFERING_STATUS && last.status == BUFFERING_STATUS then
        resp.current < last.current + MIN_PROGRESS_DELTA
      else if resp.status == PUSHING_STATUS && last.status == PUSHING_STATUS then
        resp.current != last.total && resp.current < last.current + MIN_PROGRESS_DELTA
      else false
  }

  // ---------------------------------------------------------------- what one value does

  /** Where the writer got to, and whether it ended the process. */
  datatype Progress = Progress(w: World, halted: bool)

  /** A JSON value read into a response record: an object fills the fields it names, null fills
      none, and any other value is a type error. */
  function Interpret(env: Env, text: Bytes): Option<Response> {
    if text == [] then None
    else if text[0] == OPEN_BRACE then env.decode(text)
    else if text[0] == 0x6E then Some(EMPTY_RESPONSE)
    else None
  }

  predicate IsError(env: Env, text: Bytes) {
    var m := Interpret(env, text);
    m.Some? && m.value.error != ""
  }

  function Accept(env: Env, w: World, text: Bytes): Progress {
    match Interpret(env, text)
    case None => Progress(w, true)
    case Some(m) =>
      if m.error != "" then Progress(w.(writer := w.writer.(err := Some(m))), false)
      else
        match env.marshal(m)
        case None => Progress(w, true)
        case Some(entry) =>
          var c := GrpcBuild.PublishResult(env, w.link, entry);
          Progress(w.(link := c.link), c.out.Failed?)
  }

  /** The values in order, stopping at the first that ends the process. */
  function Deliver(env: Env, w: World, values: seq<Bytes>): Progress {
    if values == [] then Progress(w, false)
    else
      var n := |values| - 1;
      var p := Deliver(env, w, values[..n]);
      if p.halted then p else Accept(env, p.w, values[n])
  }

  // ---------------------------------------------------------------- what one write does

  function WithPartial(w: World, b: Bytes): World {
    w.(writer := w.writer.(partial := b))
  }

  /** The decode loop: one value, then the rest of the buffer. */
  function Drain(env: Env, w: World, buf: Bytes): Progress
    decreases |buf|
  {
    match Decode(buf)
    case EndOfInput => Progress(w, false)
    case UnexpectedEnd => Progress(WithPartial(w, buf), false)
    case Malformed => Progress(w, true)
    case Value(text, rest) =>
      var p := Accept(env, w, text);
      if p.halted then p else Drain(env, p.w, rest)
  }

  function WriteResult(env: Env, w: World, p: Bytes): Progress {
    Drain(env, WithPartial(w, []), if w.writer.partial != [] then w.writer.partial + p else p)
  }

  /** One write per piece, as a container request makes them. */
  function StreamResult(env: Env, w: World, chunks: seq<Bytes>): Progress {
    if chunks == [] then Progress(w, false)
    else
      var n := |chunks| - 1;
      var p := StreamResult(env, w, chunks[..n]);
      if p.halted then p else WriteResult(env, p.w, chunks[n])
  }

  /** `ErrResponse` hands out the recorded error and forgets it. */
  function ForgetError(w: World): World {
    w.(writer := w.writer.(err := None))
  }

  // ---------------------------------------------------------------- the writer as an object

  class PartialBuffer {
    var data: Bytes

    constructor ()
      ensures data == []
    {
      data := [];
    }

    predicate HasContents()
      reads this
    {
      |data| != 0
    }

    method Set(input: Bytes)
      modifies this
      ensures data == input
    {
      data := input;
    }

    method GetAndEmpty(input: Bytes) returns (ret: Bytes)
      modifies this
      ensures ret == old(data) + input && data == []
    {
      ret := data + input;
      data := [];
    }
  }

  class DockerRPCWriter {
    const client: GrpcBuild.GrpcClient
    const partialBuffer: PartialBuffer
    var errResponse: Option<Response>

    constructor (client: GrpcBuild.GrpcClient)
      ensures this.client == client && fresh(partialBuffer)
      ensures View() == WriterState([], None)
    {
      this.client := client;
      partialBuffer := new PartialBuffer();
      errResponse := None;
    }

    ghost function View(): WriterState
      reads this, partialBuffer
    {
      WriterState(partialBuffer.data, errResponse)
    }

    ghost function Whole(): World
      reads this, partialBuffer, client, client.manager
    {
      World(client.View(), View())
    }

    method Write(p: Bytes) returns (n: nat, halted: bool)
      modifies this, partialBuffer, client, client.manager
      ensures n == |p|
      ensures Progress(Whole(), halted) == WriteResult(client.manager.env, old(Whole()), p)
    {
      hide Decode, GrpcBuild.PublishResult;
      ghost var env := client.manager.env;
      n := |p|;
      var buf := p;
      if partialBuffer.HasContents() {
        buf := partialBuffer.GetAndEmpty(buf);
      }
      ghost var all, start := buf, Whole();
      assert start == WithPartial(old(Whole()), []);
      var f := Filter(None);
      while true
        invariant Drain(env, Whole(), buf) == Drain(env, start, all)
        decreases |buf|
      {
        match Decode(buf) {
          case EndOfInput =>
            return n, false;
          case UnexpectedEnd =>
            partialBuffer.Set(buf);
            return n, false;
          case Malformed =>
            return n, true;
          case Value(text, rest) =>
            var m := Interpret(client.manager.env, text);
            if m.None? {
              return n, true;
            }
            buf := rest;
            if m.value.error != "" {
              errResponse := m;
              continue;
            }
            if ShouldSkip(f, m.value) {
              continue;
            }
            var entry := client.manager.env.marshal(m.value);
            if entry.None? {
              return n, true;
            }
            var out := client.PublishBuildLogEntry(entry.value);
            if out.Failed? {
              return n, true;
            }
        }
      }
    }

    method WriteAll(chunks: seq<Bytes>) returns (halted: bool)
      modifies this, partialBuffer, client, client.manager
      ensures Progress(Whole(), halted) == StreamResult(client.manager.env, old(Whole()), chunks)
    {
      hide WriteResult;
      halted := false;
      for i := 0 to |chunks|
        invariant Progress(Whole(), halted) == StreamResult(client.manager.env, old(Whole()), chunks[..i])
      {
        assert chunks[..i + 1][..i] == chunks[..i];
        if !halted {
          var n;
          n, halted := Write(chunks[i]);
        }
      }
      assert chunks[..|chunks|] == chunks;
    }

    method ErrResponse() returns (err: Option<string>)
      modifies this
      ensures err == if old(errResponse).None? then None else Some(old(errResponse).value.error)
      ensures Whole() == ForgetError(old(Whole()))
    {
      var e := errResponse;
      ResetError();
      err := if e.None? then None else Some(e.value.error);
    }

    method ResetError()
      modifies this
      ensures Whole() == ForgetError(old(Whole()))
    {
      errResponse := None;
    }
  }

  // ---------------------------------------------------------------- delivering in parts

  lemma {:induction false} DeliverAppend(env: Env, w: World, a: seq<Bytes>, b: seq<Bytes>)
    ensures var p := Deliver(env, w, a);
            Deliver(env, w, a + b) == if p.halted then p else Deliver(env, p.w, b)
    decreases |b|
  {
    hide Accept;
    if b == [] {
      assert a + b == a;
    } else {
      var n := |b| - 1;
      assert (a + b)[..|a + b| - 1] == a + b[..n];
      DeliverAppend(env, w, a, b[..n]);
    }
  }

  lemma DeliverOne(env: Env, w: World, v: Bytes)
    ensures Deliver(env, w, [v]) == Accept(env, w, v)
  {
    hide Accept;
    assert [v][..0] == [];
    assert Deliver(env, w, [v][..0]) == Progress(w, false);
  }

  /** No value touches the partial buffer, and none reads it. */
  lemma {:induction false} DeliverKeepsPartial(env: Env, w: World, values: seq<Bytes>, b: Bytes)
    ensures var p := Deliver(env, w, values);
            p.w.writer.partial == w.writer.partial &&
            Deliver(env, WithPartial(w, b), values) == Progress(WithPartial(p.w, b), p.halted)
  {
    if values != [] {
      DeliverKeepsPartial(env, w, values[..|values| - 1], b);
    }
  }

  /** What a run of writes does, said in terms of framing alone. */
  function Processed(env: Env, w: World, f: Frames): Progress {
    var d := Deliver(env, w, f.values);
    var halted := d.halted || f.halted;
    Progress(WithPartial(d.w, if halted then [] else f.rest), halted)
  }

  lemma {:induction false} DrainIsProcessed(env: Env, w: World, buf: Bytes)
    requires w.writer.partial == []
    ensures var f := FramesOf(buf);
            Drain(env, w, buf) == Processed(env, w, Frames(f.values, Keep(f.rest), f.halted))
    decreases |buf|
  {
    hide FramesOf, Decode;
    FramesUnfold(buf);
    DecodeTails(buf);
    if Decode(buf).Value? {
      hide Accept;
      var text, rest := Decode(buf).text, Decode(buf).rest;
      DeliverOne(env, w, text);
      DeliverKeepsPartial(env, w, [text], []);
      DeliverAppend(env, w, [text], FramesOf(rest).values);
      var p := Accept(env, w, text);
      if !p.halted {
        DrainIsProcessed(env, p.w, rest);
      }
    }
  }

  lemma DecodeTails(buf: Bytes)
    ensures Decode(buf).EndOfInput? ==> Blank(buf)
    ensures Decode(buf).UnexpectedEnd? ==> !Blank(buf)
  {
    hide ScanFrom;
  }

  /** Writing pieces one after the other delivers the values of those pieces, no matter where a
      piece ends inside a value, and stops where delivery or framing stops. */
  lemma {:induction false} StreamIsProcessed(env: Env, w: World, chunks: seq<Bytes>)
    ensures var f := PiecesOf(w.writer.partial, chunks);
            StreamResult(env, w, chunks) == Processed(env, w, f)
    decreases |chunks|
  {
    hide FramesOf, Drain, Keep, Accept;
    if chunks == [] {
    } else {
      var n := |chunks| - 1;
      var cs, x := chunks[..n], chunks[n];
      StreamIsProcessed(env, w, cs);
      var p := StreamResult(env, w, cs);
      var before := PiecesOf(w.writer.partial, cs);
      if !p.halted {
        var d := Deliver(env, w, before.values);
        var buf := before.rest + x;
        assert p.w == WithPartial(d.w, before.rest);
        assert before.rest == [] ==> buf == x;
        var w0 := WithPartial(p.w, []);
        assert WriteResult(env, p.w, x) == Drain(env, w0, buf);
        DrainIsProcessed(env, w0, buf);
        DeliverAppend(env, w, before.values, FramesOf(buf).values);
        DeliverKeepsPartial(env, d.w, FramesOf(buf).values, []);
      } else if !before.halted {
        DeliverAppend(env, w, before.values, FramesOf(before.rest + x).values);
      }
    }
  }

  // ---------------------------------------------------------------- the cuts do not matter

  /** What was kept from before, joined with the first piece. */
  function Joined(partial: Bytes, chunks: seq<Bytes>): seq<Bytes>
    requires chunks != []
  {
    [partial + chunks[0]] + chunks[1..]
  }

  lemma {:induction false} FlattenJoined(partial: Bytes, chunks: seq<Bytes>)
    requires chunks != []
    ensures Flatten(Joined(partial, chunks)) == partial + Flatten(chunks)
  {
    var first := [chunks[0]];
    assert chunks == first + chunks[1..];
    FlattenAppend(first, chunks[1..]);
    FlattenAppend([partial + chunks[0]], chunks[1..]);
    FlattenSingle(chunks[0]);
    FlattenSingle(partial + chunks[0]);
    assert partial + (chunks[0] + Flatten(chunks[1..])) == partial + chunks[0] + Flatten(chunks[1..]);
  }

  lemma FlattenSingle(b: Bytes)
    ensures Flatten([b]) == b
  {
    assert [b][..0] == [] && [] + b == b;
  }

  lemma {:induction false} PiecesJoined(partial: Bytes, chunks: seq<Bytes>)
    requires chunks != []
    ensures PiecesOf(partial, chunks) == PiecesOf([], Joined(partial, chunks))
    decreases |chunks|
  {
    hide FramesOf, Keep;
    var n := |chunks| - 1;
    var joined := Joined(partial, chunks);
    if n == 0 {
      assert chunks[..0] == joined[..0] == [];
      assert [] + (partial + chunks[0]) == partial + chunks[0];
    } else {
      PiecesJoined(partial, chunks[..n]);
      assert joined[..n] == Joined(partial, chunks[..n]);
      assert joined[n] == chunks[n];
    }
  }

  /** A writer in any state, a stream, and any way of cutting it into writes, against one single
      write of the whole stream. The requests sent, the counters and the recorded error are the
      same, always. Whether the process ends is the same unless a cut falls after a whole bare
      number that later bytes break off; and if it does not end, the writer ends in the same state
      exactly if no cut falls in the whitespace before an unfinished value. The cuts are those of
      the stream after what the writer had kept from before. */
  lemma CutsDoNotMatter(env: Env, w: World, chunks: seq<Bytes>)
    requires chunks != []
    ensures var all := Joined(w.writer.partial, chunks);
            var p, q := StreamResult(env, w, chunks), StreamResult(env, w, [Flatten(chunks)]);
            && p.w.link == q.w.link
            && p.w.writer.err == q.w.writer.err
            && (p.halted == q.halted <==> q.halted || !NumberCut(all))
            && (p.halted && q.halted ==> p == q)
            && (!p.halted ==> (p == q <==> !BlankCut(all)))
            && (!p.halted ==> SkipSpace(p.w.writer.partial) == SkipSpace(q.w.writer.partial))
  {
    hide FramesOf, PiecesOf, NumberCut, BlankCut, StreamResult, Deliver, Joined;
    var partial := w.writer.partial;
    var all, one := Joined(partial, chunks), [Flatten(chunks)];
    StreamIsProcessed(env, w, chunks);
    StreamIsProcessed(env, w, one);
    PiecesJoined(partial, chunks);
    FlattenJoined(partial, chunks);
    WholeJoined(partial, chunks);
    ChunkInvariance(all);
    var values := PiecesOf(partial, chunks).values;
    var d := Deliver(env, w, values);
    DeliverKeepsPartial(env, w, values, []);
  }

  lemma WholeJoined(partial: Bytes, chunks: seq<Bytes>)
    requires chunks != []
    ensures PiecesOf(partial, [Flatten(chunks)]) == Whole(Joined(partial, chunks))
  {
    hide FramesOf, PiecesOf;
    FlattenJoined(partial, chunks);
    PiecesJoined(partial, [Flatten(chunks)]);
    var x := [partial + Flatten(chunks)];
    assert Joined(partial, [Flatten(chunks)]) == x;
  }
}
