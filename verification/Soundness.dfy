/** Every stage keeps the builder, its writer and the trace in step, and makes just the requests
    it should. */
module Soundness {
  import opened JsonScanner
  import opened Framing
  import opened Outside
  import opened DockerLogWriter
  import opened BuildContext
  import opened Trace
  import GrpcBuild

  // ---------------------------------------------------------------- single events

  lemma StillUndisturbed(env: Env, t: seq<Event>, e: Event)
    requires Undisturbed(env, t) && !e.LogReq? && !Streams(e)
    ensures Undisturbed(env, t + [e])
  {
    hide LogEntries, Control, Sends, PhaseCount, ChunksOf, Numbered, Unreadable;
    Snoc(env, "", t, e);
    forall i: nat | i < |t + [e]| ensures !FailedSend(env, t + [e], i) {
      assert i < |t| ==> !FailedSend(env, t, i);
    }
  }

  lemma EmitKeeps(env: Env, w: World, e: Event)
    requires Sound(env, w)
    requires !e.PhaseReq? && !e.LogReq? && !e.CachedTagReq? && !Streams(e)
    ensures Keeps(env, w, Emit(w, e), false)
    ensures Control(Emit(w, e).link.trace) == Control(w.link.trace) + [e]
  {
    StillUndisturbed(env, w.link.trace, e);
    hide LogEntries, Control, Sends, PhaseCount, ChunksOf, Numbered, Undisturbed;
    Snoc(env, w.link.jobToken, w.link.trace, e);
  }

  lemma SetPhaseKeeps(env: Env, w: World, phase: Phase, pull: PullMetadata)
    requires Sound(env, w)
    ensures var s := SetPhase(env, w, phase, pull);
            && Keeps(env, w, s.w, false)
            && s.w.writer == w.writer
            && !s.out.Halted?
            && s.w.link.phaseNum == w.link.phaseNum + 1
            && Control(s.w.link.trace) ==
               Control(w.link.trace) + [PhaseReq(w.link.jobToken, ToInt32(w.link.phaseNum + 1), GrpcBuild.PhaseEnum(phase), pull)]
  {
    hide LogEntries, Control, Sends, PhaseCount, ChunksOf, Numbered, ToInt32, GrpcBuild.PhaseEnum, Undisturbed, SoundEnd, PiecesOf, Entries, GrpcBuild.SetPhaseResult;
    var e := PhaseReq(w.link.jobToken, ToInt32(w.link.phaseNum + 1), GrpcBuild.PhaseEnum(phase), pull);
    StillUndisturbed(env, w.link.trace, e);
    Snoc(env, w.link.jobToken, w.link.trace, e);
    GrpcBuild.SetPhaseAdds(env, w.link, phase, pull);
  }

  lemma FindTagKeeps(env: Env, w: World, image: string, tag: string, imageID: string)
    requires Sound(env, w)
    ensures var s := Lift(w, GrpcBuild.FindTagResult(env, w.link, image, tag, imageID));
            && Keeps(env, w, s.w, false)
            && s.w.writer == w.writer
            && !s.out.Halted?
            && Control(s.w.link.trace) == Control(w.link.trace) + [CachedTagReq(w.link.jobToken, image, tag, imageID)]
  {
    hide LogEntries, Control, Sends, PhaseCount, ChunksOf, Numbered, Undisturbed;
    StillUndisturbed(env, w.link.trace, CachedTagReq(w.link.jobToken, image, tag, imageID));
    Snoc(env, w.link.jobToken, w.link.trace, CachedTagReq(w.link.jobToken, image, tag, imageID));
  }

  lemma ForgetKeeps(env: Env, w: World)
    requires Sound(env, w)
    ensures Keeps(env, w, ForgetError(w), false)
  {
  }

  lemma KeepsTrans(env: Env, u: World, v: World, w: World, halted: bool)
    requires Keeps(env, u, v, false) && Keeps(env, v, w, halted)
    ensures Keeps(env, u, w, halted)
  {
    hide Sound, SoundEnd;
  }

  lemma KeepsSound(env: Env, u: World, v: World)
    requires Keeps(env, u, v, false)
    ensures Sound(env, v)
  {
    hide Sound;
  }

  // ---------------------------------------------------------------- one streaming request

  lemma {:induction false} EntriesAppend(env: Env, a: seq<Bytes>, b: seq<Bytes>)
    ensures Entries(env, a + b) == Entries(env, a) + Entries(env, b)
    decreases |b|
  {
    hide EntryOf;
    if b == [] {
      assert a + b == a;
    } else {
      assert (a + b)[..|a + b| - 1] == a + b[..|b| - 1];
      EntriesAppend(env, a, b[..|b| - 1]);
    }
  }

  /** The values of all the bytes streamed are the same however the bytes were cut. */
  lemma ValuesOfPieces(env: Env, t: seq<Event>)
    ensures Values(env, t) == PiecesOf([], ChunksOf(env, t)).values
  {
    hide PiecesOf, FramesOf, Whole;
    ChunkInvariance(ChunksOf(env, t));
    WholeIsFrames(ChunksOf(env, t));
  }

  /** The values that one more streaming request completes. */
  lemma NewValues(env: Env, w: World, e: Event)
    requires Synced(env, w) && Streams(e)
    ensures var chunks := env.container(|w.link.trace|).chunks;
            var f := PiecesOf(w.writer.partial, chunks);
            && Values(env, w.link.trace + [e]) == Values(env, w.link.trace) + f.values
            && PiecesOf([], ChunksOf(env, w.link.trace + [e])) ==
               Frames(Values(env, w.link.trace) + f.values, f.rest, f.halted)
  {
    hide PiecesOf, Values;
    var t := w.link.trace;
    Snoc(env, "", t, e);
    ValuesOfPieces(env, t);
    ValuesOfPieces(env, t + [e]);
    PiecesAppend([], ChunksOf(env, t), env.container(|t|).chunks);
  }

  lemma CleanMeans(env: Env, w: World, e: Event, u: seq<Event>)
    requires Synced(env, w) && Streams(e)
    requires w.link.trace + [e] <= u
    ensures var n := |w.link.trace|;
            var f := PiecesOf(w.writer.partial, env.container(n).chunks);
            CleanCall(env, u, n) <==> env.container(n).err.None? && LastError(env, f.values).None?
  {
    hide PiecesOf, Values, IsError, LastError;
    var t, n := w.link.trace, |w.link.trace|;
    var f := PiecesOf(w.writer.partial, env.container(n).chunks);
    NewValues(env, w, e);
    LastErrorExists(env, f.values);
    assert u[..n] == t && u[..n + 1] == t + [e] && u[n] == e;
    var before, after := Values(env, t), Values(env, t + [e]);
    forall i | 0 <= i < |f.values| ensures f.values[i] == after[|before| + i] {
    }
    if i :| 0 <= i < |f.values| && IsError(env, f.values[i]) {
      assert IsError(env, after[|before| + i]);
    } else {
      forall i | |before| <= i < |after| ensures !IsError(env, after[i]) {
        assert after[i] == f.values[i - |before|];
      }
    }
  }

  lemma RequestKeeps(env: Env, w: World, e: Event)
    requires Sound(env, w) && Streams(e)
    ensures var r := RequestResult(env, w, e);
            && Keeps(env, w, r.w, r.out.Halted?)
            && w.link.trace + [e] <= r.w.link.trace
            && OnlyLogs(w.link.trace + [e], r.w.link.trace)
            && Control(r.w.link.trace) == Control(w.link.trace) + [e]
    ensures var r, n := RequestResult(env, w, e), |w.link.trace|;
            var last := LastError(env, PiecesOf(w.writer.partial, env.container(n).chunks).values);
            !r.out.Halted? ==> r.w.writer.err == if last.Some? then last else w.writer.err
  {
    hide LogEntries, Control, Sends, PhaseCount, ChunksOf, Numbered, PiecesOf, Values, LastError, Deliver, StreamResult, Entries, Undisturbed, Disturbed;
    var t := w.link.trace;
    var w1 := Emit(w, e);
    var chunks := env.container(|t|).chunks;
    var f := PiecesOf(w.writer.partial, chunks);
    Snoc(env, w.link.jobToken, t, e);
    StreamIsProcessed(env, w1, chunks);
    DeliverFacts(env, w1, f.values);
    NewValues(env, w, e);
    ValuesOfPieces(env, t);
    EntriesAppend(env, Values(env, t), f.values);
    SameValues(env, t + [e], RequestResult(env, w, e).w.link.trace);
    LastRequest(env, t, e, RequestResult(env, w, e).w.link.trace);
    RequestDisturbs(env, w, e);
  }

  /** Whether a streaming request ended the process, read off its trace. */
  lemma RequestDisturbs(env: Env, w: World, e: Event)
    requires Sound(env, w) && Streams(e)
    ensures var r := RequestResult(env, w, e);
            if r.out.Halted? then Disturbed(env, r.w.link.trace) else Undisturbed(env, r.w.link.trace)
  {
    hide LogEntries, Control, Sends, PhaseCount, ChunksOf, Numbered, PiecesOf, Values, Deliver, StreamResult, Entries, Unreadable, Undisturbed, Disturbed;
    var t, w1 := w.link.trace, Emit(w, e);
    var chunks := env.container(|t|).chunks;
    var f := PiecesOf(w.writer.partial, chunks);
    Snoc(env, w.link.jobToken, t, e);
    StreamIsProcessed(env, w1, chunks);
    DeliverFacts(env, w1, f.values);
    DeliverStops(env, w1, f.values);
    NewValues(env, w, e);
    var p, u := Deliver(env, w1, f.values), RequestResult(env, w, e).w.link.trace;
    SameValues(env, t + [e], u);
    FailedSends(env, t, e, u);
    if p.halted || f.halted {
      forall k: nat | k < |f.values| && Unreadable(env, f.values[k])
        ensures LogEntries(u) <= Entries(env, Values(env, t) + f.values[..k])
      {
        NoEntryAfterUnreadable(env, w1, f.values, k);
        EntriesAppend(env, Values(env, t), f.values[..k]);
        ValuesOfPieces(env, t);
      }
      DisturbedBy(env, t, e, u, f.values);
    } else {
      UndisturbedBy(env, t, u, f.values);
    }
  }

  /** Where sends can have failed after a request made while none had. */
  lemma FailedSends(env: Env, t: seq<Event>, e: Event, u: seq<Event>)
    requires Undisturbed(env, t) && !e.LogReq? && t + [e] <= u
    ensures forall i: nat | FailedSend(env, u, i) :: |t| + 1 <= i
  {
    hide Values, Unreadable;
    forall i: nat | i <= |t| ensures !FailedSend(env, u, i) {
      assert u[i] == (t + [e])[i];
      assert i < |t| ==> !FailedSend(env, t, i);
    }
  }

  lemma UndisturbedBy(env: Env, t: seq<Event>, u: seq<Event>, values: seq<Bytes>)
    requires Undisturbed(env, t) && Values(env, u) == Values(env, t) + values
    requires forall v | v in values :: !Unreadable(env, v)
    requires forall i: nat :: !FailedSend(env, u, i)
    ensures Undisturbed(env, u)
  {
    hide Values, Unreadable, FailedSend;
  }

  lemma DisturbedBy(env: Env, t: seq<Event>, e: Event, u: seq<Event>, values: seq<Bytes>)
    requires Undisturbed(env, t) && Streams(e) && t + [e] <= u && OnlyLogs(t + [e], u)
    requires Values(env, u) == Values(env, t) + values
    requires (exists v :: v in values && Unreadable(env, v)) || (exists i: nat :: FailedSend(env, u, i)) || PiecesOf([], ChunksOf(env, u)).halted
    requires forall i: nat | FailedSend(env, u, i) :: i == |u| - 1
    requires forall k: nat | k < |values| && Unreadable(env, values[k]) ::
               LogEntries(u) <= Entries(env, Values(env, t) + values[..k])
    ensures Disturbed(env, u)
  {
    hide Values, Unreadable, FailedSend, LogEntries, Entries, PiecesOf, ChunksOf;
    var before, after := Values(env, t), Values(env, u);
    if v :| v in values && Unreadable(env, v) {
      assert v in after;
    }
    assert (t + [e])[|t|] == u[|t|];
    assert EndsInStream(u, |t|);
    forall k: nat | k < |before| ensures !Unreadable(env, after[k]) {
      assert after[k] == before[k] && before[k] in before;
    }
    forall k: nat | k < |after| && Unreadable(env, after[k]) ensures LogEntries(u) <= Entries(env, after[..k]) {
      var m := k - |before|;
      assert after[k] == values[m] && after[..k] == before + values[..m];
    }
  }

  lemma {:induction false} ChunksPrefix(env: Env, t: seq<Event>, j: nat)
    requires j <= |t|
    ensures ChunksOf(env, t[..j]) <= ChunksOf(env, t)
    decreases |t|
  {
    if j < |t| {
      ChunksPrefix(env, t[..|t| - 1], j);
      assert t[..|t| - 1][..j] == t[..j];
    } else {
      assert t[..j] == t;
    }
  }

  /** If framing has not given up, it had not given up at any earlier point. */
  lemma PiecesBefore(env: Env, t: seq<Event>, j: nat)
    requires j <= |t| && !PiecesOf([], ChunksOf(env, t)).halted
    ensures !PiecesOf([], ChunksOf(env, t[..j])).halted
  {
    hide PiecesOf, ChunksOf;
    ChunksPrefix(env, t, j);
    var all, n := ChunksOf(env, t), |ChunksOf(env, t[..j])|;
    assert all[..n] == ChunksOf(env, t[..j]);
    if PiecesOf([], all[..n]).halted {
      PiecesHaltedPrefix([], all, n);
    }
  }

  /** One more request, made while framing had not given up. */
  lemma LastRequest(env: Env, t: seq<Event>, e: Event, u: seq<Event>)
    requires !PiecesOf([], ChunksOf(env, t)).halted && t + [e] <= u && OnlyLogs(t + [e], u)
    ensures NoRequestAfterHalt(env, u)
  {
    hide PiecesOf, ChunksOf;
    forall j: nat | j < |u| && Streams(u[j]) ensures !PiecesOf([], ChunksOf(env, u[..j])).halted {
      assert j <= |t|;
      PiecesBefore(env, t, j);
      assert u[..j] == t[..j];
    }
  }

  lemma SameValues(env: Env, t: seq<Event>, u: seq<Event>)
    requires ChunksOf(env, t) == ChunksOf(env, u)
    ensures Values(env, t) == Values(env, u)
  {
  }
}
