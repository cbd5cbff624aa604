/** What a trace says: which requests went to the build manager with which numbers, which bytes
    the container runtime streamed back, and which log entries were sent. */
module Trace {
  import opened JsonScanner
  import opened Framing
  import opened Outside
  import opened DockerLogWriter
  import opened BuildContext
  import GrpcBuild

  // ---------------------------------------------------------------- reading a trace

  /** The log entries sent, in order. */
  function LogEntries(t: seq<Event>): seq<string> {
    if t == [] then []
    else
      var n := |t| - 1;
      LogEntries(t[..n]) + if t[n].LogReq? then [t[n].entry] else []
  }

  /** Everything but the log entries. */
  function Control(t: seq<Event>): seq<Event> {
    if t == [] then []
    else
      var n := |t| - 1;
      Control(t[..n]) + if t[n].LogReq? then [] else [t[n]]
  }

  /** How many sends succeeded or met the end of the stream. */
  function Sends(env: Env, t: seq<Event>): nat {
    if t == [] then 0
    else
      var n := |t| - 1;
      Sends(env, t[..n]) + if t[n].LogReq? && !env.send(n).SendError? then 1 else 0
  }

  function PhaseCount(t: seq<Event>): nat {
    if t == [] then 0
    else
      var n := |t| - 1;
      PhaseCount(t[..n]) + if t[n].PhaseReq? then 1 else 0
  }

  /** The pieces that all streaming requests wrote, in order. */
  function ChunksOf(env: Env, t: seq<Event>): seq<Bytes> {
    if t == [] then []
    else
      var n := |t| - 1;
      ChunksOf(env, t[..n]) + if Streams(t[n]) then env.container(n).chunks else []
  }

  /** The complete JSON values in all the bytes streamed so far. */
  function Values(env: Env, t: seq<Event>): seq<Bytes> {
    FramesOf(Flatten(ChunksOf(env, t))).values
  }

  /** The entries that the values call for: one for each that is not an error. */
  function Entries(env: Env, values: seq<Bytes>): seq<string> {
    if values == [] then []
    else
      var n := |values| - 1;
      Entries(env, values[..n]) + EntryOf(env, values[n])
  }

  function EntryOf(env: Env, text: Bytes): seq<string> {
    match Interpret(env, text)
    case None => []
    case Some(m) =>
      if m.error != "" then []
      else match env.marshal(m) case None => [] case Some(entry) => [entry]
  }

  // ---------------------------------------------------------------- numbers and tokens

  predicate NumberedEvent(env: Env, token: string, before: seq<Event>, e: Event) {
    match e
    case PhaseReq(tok, number, _, _) => tok == token && number == ToInt32(PhaseCount(before) + 1)
    case LogReq(tok, number, _) => tok == token && number == ToInt32(Sends(env, before) + 1)
    case CachedTagReq(tok, _, _, _) => tok == token
    case _ => true
  }

  predicate Numbered(env: Env, token: string, t: seq<Event>) {
    t != [] ==>
      var n := |t| - 1;
      Numbered(env, token, t[..n]) && NumberedEvent(env, token, t[..n], t[n])
  }

  /** The client's counters are the counts of the trace, and every request carried the right
      number and the job token. */
  predicate Ledger(env: Env, l: Link) {
    Numbered(env, l.jobToken, l.trace) && l.logNum == Sends(env, l.trace) && l.phaseNum == PhaseCount(l.trace)
  }

  lemma {:induction false} NumberedAt(env: Env, token: string, t: seq<Event>, j: nat)
    requires Numbered(env, token, t) && j < |t|
    ensures NumberedEvent(env, token, t[..j], t[j]) && Numbered(env, token, t[..j])
    decreases |t|
  {
    hide NumberedEvent;
    var n := |t| - 1;
    if j < n {
      NumberedAt(env, token, t[..n], j);
      assert t[..n][..j] == t[..j];
    }
  }

  lemma Snoc(env: Env, token: string, t: seq<Event>, e: Event)
    ensures LogEntries(t + [e]) == if e.LogReq? then LogEntries(t) + [e.entry] else LogEntries(t)
    ensures Control(t + [e]) == if e.LogReq? then Control(t) else Control(t) + [e]
    ensures Sends(env, t + [e]) == Sends(env, t) + if e.LogReq? && !env.send(|t|).SendError? then 1 else 0
    ensures PhaseCount(t + [e]) == PhaseCount(t) + if e.PhaseReq? then 1 else 0
    ensures ChunksOf(env, t + [e]) == if Streams(e) then ChunksOf(env, t) + env.container(|t|).chunks else ChunksOf(env, t)
    ensures Numbered(env, token, t + [e]) <==> Numbered(env, token, t) && NumberedEvent(env, token, t, e)
  {
    hide NumberedEvent;
    assert (t + [e])[..|t + [e]| - 1] == t;
  }

  // ---------------------------------------------------------------- the writer and the trace

  /** Between requests the writer holds just the unfinished end of all the bytes streamed so
      far, and has sent exactly the entries those bytes call for. */
  ghost predicate Synced(env: Env, w: World) {
    var f := PiecesOf([], ChunksOf(env, w.link.trace));
    && !f.halted
    && w.writer.partial == f.rest
    && LogEntries(w.link.trace) == Entries(env, f.values)
  }

  /** A value for which the process must end: neither an object nor null, an object whose fields
      cannot be read, or a record without an error that cannot be written as a log entry. */
  predicate Unreadable(env: Env, text: Bytes) {
    if text != [] && text[0] == 0x7B then
      match env.decode(text)
      case None => true
      case Some(m) => m.error == "" && env.marshal(m).None?
    else
      text == [] || text[0] != 0x6E || env.marshal(Response("", "", "", "", 0, 0)).None?
  }

  /** The log entry at position `i` met an error other than the end of the stream. */
  predicate FailedSend(env: Env, t: seq<Event>, i: nat) {
    i < |t| && t[i].LogReq? && env.send(i).SendError?
  }

  /** Nothing has happened so far that ends the process. */
  ghost predicate Undisturbed(env: Env, t: seq<Event>) {
    && (forall i: nat | i < |t| :: !FailedSend(env, t, i))
    && (forall v | v in Values(env, t) :: !Unreadable(env, v))
  }

  ghost predicate Sound(env: Env, w: World) {
    Ledger(env, w.link) && Synced(env, w) && Undisturbed(env, w.link.trace)
  }

  /** The process ended while a stream was processed: a send failed, a value was unreadable, or
      the decoder gave up. Nothing but log entries came after the streaming request, nothing at
      all after a failed send, and no entry after an unreadable value. */
  ghost predicate Disturbed(env: Env, t: seq<Event>) {
    && Stops(env, t)
    && (forall i: nat | FailedSend(env, t, i) :: i == |t| - 1)
    && (exists j :: EndsInStream(t, j))
    && (forall k: nat | k < |Values(env, t)| && Unreadable(env, Values(env, t)[k]) ::
          LogEntries(t) <= Entries(env, Values(env, t)[..k]))
  }

  ghost predicate Stops(env: Env, t: seq<Event>) {
    || (exists i: nat :: FailedSend(env, t, i))
    || (exists v :: v in Values(env, t) && Unreadable(env, v))
    || PiecesOf([], ChunksOf(env, t)).halted
  }

  /** The request at `j` streams, and only log entries come after it. */
  predicate EndsInStream(t: seq<Event>, j: int) {
    0 <= j < |t| && Streams(t[j]) && forall i | j < i < |t| :: t[i].LogReq?
  }

  /** Once the process has ended: nothing was sent that the bytes do not call for, and the last
      streaming request was made before framing gave up. */
  ghost predicate SoundEnd(env: Env, w: World) {
    && Ledger(env, w.link)
    && LogEntries(w.link.trace) <= Entries(env, Values(env, w.link.trace))
    && NoRequestAfterHalt(env, w.link.trace)
    && Disturbed(env, w.link.trace)
  }

  ghost predicate NoRequestAfterHalt(env: Env, t: seq<Event>) {
    forall j: nat | j < |t| && Streams(t[j]) :: !PiecesOf([], ChunksOf(env, t[..j])).halted
  }

  ghost predicate Keeps(env: Env, w: World, v: World, halted: bool) {
    && (if halted then SoundEnd(env, v) else Sound(env, v))
    && v.link.jobToken == w.link.jobToken
    && w.link.trace <= v.link.trace
  }

  /** A streaming request was clean: the runtime reported no error, and no complete error
      object ended in the bytes it wrote, wherever that object began. */
  ghost predicate CleanCall(env: Env, t: seq<Event>, j: nat) {
    && j < |t| && Streams(t[j])
    && env.container(j).err.None?
    && var before, after := Values(env, t[..j]), Values(env, t[..j + 1]);
       forall i | |before| <= i < |after| :: !IsError(env, after[i])
  }

  // ---------------------------------------------------------------- delivering values

  /** The last error among the values. */
  function LastError(env: Env, values: seq<Bytes>): Option<Response> {
    if values == [] then None
    else
      var n := |values| - 1;
      if IsError(env, values[n]) then Interpret(env, values[n]) else LastError(env, values[..n])
  }

  lemma {:induction false} LastErrorExists(env: Env, values: seq<Bytes>)
    ensures LastError(env, values).Some? <==> exists i :: 0 <= i < |values| && IsError(env, values[i])
    decreases |values|
  {
    hide IsError;
    if values != [] {
      var n := |values| - 1;
      LastErrorExists(env, values[..n]);
      if IsError(env, values[n]) {
        LastErrorIsError(env, values);
      } else if i :| 0 <= i < |values| && IsError(env, values[i]) {
        assert IsError(env, values[..n][i]);
      }
      if LastError(env, values[..n]).Some? {
        var i :| 0 <= i < n && IsError(env, values[..n][i]);
        assert IsError(env, values[i]);
      }
    }
  }

  lemma LastErrorIsError(env: Env, values: seq<Bytes>)
    requires values != [] && IsError(env, values[|values| - 1])
    ensures LastError(env, values).Some?
  {
  }

  /** All that was added to the trace is log entries. */
  ghost predicate OnlyLogs(t: seq<Event>, u: seq<Event>) {
    forall i | |t| <= i < |u| :: u[i].LogReq?
  }

  /** What delivering values leaves behind: the last error, if there was one, the entries in
      order, and counters that match. */
  lemma {:induction false} DeliverFacts(env: Env, w: World, values: seq<Bytes>)
    requires Ledger(env, w.link)
    ensures var p := Deliver(env, w, values);
            && Ledger(env, p.w.link)
            && p.w.link.jobToken == w.link.jobToken
            && w.link.trace <= p.w.link.trace
            && Control(p.w.link.trace) == Control(w.link.trace)
            && ChunksOf(env, p.w.link.trace) == ChunksOf(env, w.link.trace)
            && OnlyLogs(w.link.trace, p.w.link.trace)
            && LogEntries(p.w.link.trace) <= LogEntries(w.link.trace) + Entries(env, values)
    ensures var p := Deliver(env, w, values);
            !p.halted ==>
              && LogEntries(p.w.link.trace) == LogEntries(w.link.trace) + Entries(env, values)
              && p.w.writer.err == if LastError(env, values).Some? then LastError(env, values) else w.writer.err
    decreases |values|
  {
    hide LogEntries, Control, Ledger, ChunksOf, Interpret;
    if values != [] {
      var n := |values| - 1;
      DeliverFacts(env, w, values[..n]);
      var p := Deliver(env, w, values[..n]);
      if p.halted {
        assert LogEntries(w.link.trace) + Entries(env, values) ==
               (LogEntries(w.link.trace) + Entries(env, values[..n])) + EntryOf(env, values[n]);
      } else {
        AcceptFacts(env, p.w, values[n]);
      }
    }
  }

  lemma AcceptFacts(env: Env, w: World, text: Bytes)
    requires Ledger(env, w.link)
    ensures var p := Accept(env, w, text);
            && Ledger(env, p.w.link)
            && p.w.link.jobToken == w.link.jobToken
            && w.link.trace <= p.w.link.trace
            && Control(p.w.link.trace) == Control(w.link.trace)
            && ChunksOf(env, p.w.link.trace) == ChunksOf(env, w.link.trace)
            && OnlyLogs(w.link.trace, p.w.link.trace)
            && LogEntries(p.w.link.trace) <= LogEntries(w.link.trace) + EntryOf(env, text)
    ensures var p := Accept(env, w, text);
            !p.halted ==>
              && LogEntries(p.w.link.trace) == LogEntries(w.link.trace) + EntryOf(env, text)
              && p.w.writer.err == if IsError(env, text) then Interpret(env, text) else w.writer.err
  {
    hide LogEntries, Control, ChunksOf, Sends, PhaseCount, Numbered, Interpret, ToInt32;
    var m := Interpret(env, text);
    if m.Some? && m.value.error == "" && env.marshal(m.value).Some? {
      var e := LogReq(w.link.jobToken, ToInt32(w.link.logNum + 1), env.marshal(m.value).value);
      Snoc(env, w.link.jobToken, w.link.trace, e);
    }
  }

  // ---------------------------------------------------------------- when the process ends

  lemma AcceptStops(env: Env, w: World, text: Bytes)
    ensures var p, n := Accept(env, w, text), |w.link.trace|;
            && w.link.trace <= p.w.link.trace && |p.w.link.trace| <= n + 1
            && (p.halted <==> Unreadable(env, text) || FailedSend(env, p.w.link.trace, n))
            && (Unreadable(env, text) ==> p.w.link.trace == w.link.trace)
  {
    hide ToInt32;
  }

  /** Delivery stops exactly at the first value that is unreadable or whose entry cannot be sent,
      and makes no request after it. */
  lemma {:induction false} DeliverStops(env: Env, w: World, values: seq<Bytes>)
    ensures var p, n := Deliver(env, w, values), |w.link.trace|;
            && w.link.trace <= p.w.link.trace
            && (p.halted <==> (exists v :: v in values && Unreadable(env, v))
                              || (exists i: nat :: n <= i && FailedSend(env, p.w.link.trace, i)))
            && (forall i: nat | n <= i && FailedSend(env, p.w.link.trace, i) :: i == |p.w.link.trace| - 1)
    decreases |values|
  {
    hide Accept, Unreadable;
    if values != [] {
      var k := |values| - 1;
      DeliverStops(env, w, values[..k]);
      var q := Deliver(env, w, values[..k]);
      assert values == values[..k] + [values[k]];
      if !q.halted {
        AcceptStops(env, q.w, values[k]);
        var p := Accept(env, q.w, values[k]);
        forall i: nat | |w.link.trace| <= i && FailedSend(env, p.w.link.trace, i) ensures i == |q.w.link.trace| {
          assert i < |q.w.link.trace| ==> FailedSend(env, q.w.link.trace, i);
        }
        if FailedSend(env, p.w.link.trace, |q.w.link.trace|) {
          assert |w.link.trace| <= |q.w.link.trace|;
        }
      }
    }
  }

  /** No entry is sent for a value at or after an unreadable one. */
  lemma NoEntryAfterUnreadable(env: Env, w: World, values: seq<Bytes>, k: nat)
    requires Ledger(env, w.link) && k < |values| && Unreadable(env, values[k])
    ensures LogEntries(Deliver(env, w, values).w.link.trace) <= LogEntries(w.link.trace) + Entries(env, values[..k])
  {
    hide Accept, Unreadable, LogEntries, Entries, Ledger;
    var a, b := values[..k], values[k + 1..];
    assert values == (a + [values[k]]) + b;
    DeliverFacts(env, w, a);
    DeliverAppend(env, w, a, [values[k]]);
    DeliverAppend(env, w, a + [values[k]], b);
    var q := Deliver(env, w, a);
    if !q.halted {
      DeliverOne(env, q.w, values[k]);
      AcceptStops(env, q.w, values[k]);
    }
  }
}
