/** From the daemon's messages to the manager's log entries: printed as JSON objects, cut
    anywhere, written piece by piece. */
module RoundTrip {
  import opened JsonScanner
  import opened Framing
  import opened JsonGrammar
  import opened Outside
  import opened DockerLogWriter
  import opened BuildContext
  import opened Trace
  import opened Retries
  import GrpcBuild

  /** The entries that messages call for: one for each that is not an error. */
  function Published(env: Env, ms: seq<Response>): seq<string> {
    if ms == [] then []
    else
      var n := |ms| - 1;
      if ms[n].error != "" || env.marshal(ms[n]).None? then Published(env, ms[..n])
      else Published(env, ms[..n]) + [env.marshal(ms[n]).value]
  }

  /** The last message that is an error. */
  function LastFailure(ms: seq<Response>): Option<Response> {
    if ms == [] then None
    else if ms[|ms| - 1].error != "" then Some(ms[|ms| - 1])
    else LastFailure(ms[..|ms| - 1])
  }

  /** `texts` are objects that decode to `ms`, one by one. */
  ghost predicate Encodes(env: Env, texts: seq<Bytes>, ms: seq<Response>) {
    && |texts| == |ms|
    && forall i | 0 <= i < |texts| :: EncodesOne(env, texts[i], ms[i])
  }

  predicate EncodesOne(env: Env, text: Bytes, m: Response) {
    text != [] && text[0] == OPEN_BRACE && env.decode(text) == Some(m)
  }

  lemma {:induction false} EntriesOfMessages(env: Env, texts: seq<Bytes>, ms: seq<Response>)
    requires Encodes(env, texts, ms)
    ensures Entries(env, texts) == Published(env, ms)
    ensures LastError(env, texts) == LastFailure(ms)
    decreases |texts|
  {
    if texts != [] {
      var n := |texts| - 1;
      assert EncodesOne(env, texts[n], ms[n]);
      EntriesOfMessages(env, texts[..n], ms[..n]);
    }
  }

  /** No message is turned away by `marshal`, and no send fails. */
  ghost predicate AllGoesThrough(env: Env) {
    (forall m :: env.marshal(m).Some?) && (forall n :: !env.send(n).SendError?)
  }

  lemma {:induction false} NothingHalts(env: Env, w: World, texts: seq<Bytes>, ms: seq<Response>)
    requires Encodes(env, texts, ms) && AllGoesThrough(env)
    ensures !Deliver(env, w, texts).halted
    decreases |texts|
  {
    if texts != [] {
      var n := |texts| - 1;
      assert EncodesOne(env, texts[n], ms[n]);
      NothingHalts(env, w, texts[..n], ms[..n]);
      AcceptGoesThrough(env, Deliver(env, w, texts[..n]).w, texts[n], ms[n]);
    }
  }

  lemma AcceptGoesThrough(env: Env, w: World, text: Bytes, m: Response)
    requires EncodesOne(env, text, m) && AllGoesThrough(env)
    ensures !Accept(env, w, text).halted
  {
    assert !env.send(|w.link.trace|).SendError?;
    assert env.marshal(m).Some?;
    hide ToInt32;
  }

  lemma {:induction false} TextsEncode(env: Env, objects: seq<Value>, ms: seq<Response>)
    requires |objects| == |ms|
    requires forall i | 0 <= i < |objects| :: IsObject(objects[i]) && env.decode(Text(objects[i])) == Some(ms[i])
    ensures Encodes(env, Texts(objects), ms)
    decreases |objects|
  {
    if objects != [] {
      var os, rs := objects[1..], ms[1..];
      forall i | 0 <= i < |os| ensures IsObject(os[i]) && env.decode(Text(os[i])) == Some(rs[i]) {
        assert os[i] == objects[i + 1] && rs[i] == ms[i + 1];
      }
      TextsEncode(env, os, rs);
      StartsWithBrace(objects[0]);
      hide Text;
      var texts := Texts(objects);
      forall i | 0 <= i < |texts| ensures EncodesOne(env, texts[i], ms[i]) {
        if i > 0 {
          assert EncodesOne(env, Texts(os)[i - 1], rs[i - 1]);
        }
      }
    }
  }

  lemma StartsWithBrace(v: Value)
    requires IsObject(v)
    ensures Text(v) != [] && Text(v)[0] == OPEN_BRACE
  {
  }

  /** Messages printed as objects with any whitespace between them, and written in any pieces:
      the entries sent are those of the messages that are not errors, in order and no others;
      the error kept is the last one; nothing is left over. If a message cannot be marshalled or
      a send fails, a prefix of the entries is sent. */
  lemma MessagesRoundTrip(env: Env, w: World, ms: seq<Response>, objects: seq<Value>, gaps: seq<Bytes>, chunks: seq<Bytes>)
    requires Ledger(env, w.link) && w.writer.partial == []
    requires GoodStream(objects, gaps) && Flatten(chunks) == StreamText(objects, gaps)
    requires |objects| == |ms| && forall i | 0 <= i < |objects| :: env.decode(Text(objects[i])) == Some(ms[i])
    ensures var p := StreamResult(env, w, chunks);
            && p.w.writer.partial == []
            && LogEntries(p.w.link.trace) <= LogEntries(w.link.trace) + Published(env, ms)
            && (!p.halted ==>
                  && LogEntries(p.w.link.trace) == LogEntries(w.link.trace) + Published(env, ms)
                  && p.w.writer.err == if LastFailure(ms).Some? then LastFailure(ms) else w.writer.err)
    ensures AllGoesThrough(env) ==> !StreamResult(env, w, chunks).halted
  {
    hide StreamResult, Deliver, PiecesOf, LogEntries, Ledger, Text, Entries, LastError, Published, LastFailure, StreamText;
    PrintedStreamRoundTrip(objects, gaps, chunks);
    StreamIsProcessed(env, w, chunks);
    var texts := Texts(objects);
    DeliverFacts(env, w, texts);
    DeliverKeepsPartial(env, w, texts, []);
    TextsEncode(env, objects, ms);
    EntriesOfMessages(env, texts, ms);
    if AllGoesThrough(env) {
      NothingHalts(env, w, texts, ms);
    }
  }
}
