/** Retries and the push loop, seen in the trace. */
module Retries {
  import opened JsonScanner
  import opened Framing
  import opened Outside
  import opened DockerLogWriter
  import opened BuildContext
  import opened Trace
  import opened Soundness

  function Repeat(e: Event, n: nat): seq<Event> {
    if n == 0 then [] else [e] + Repeat(e, n - 1)
  }

  /** The JSON values completed by the streaming request at position `j`. */
  function NewlyCompleted(env: Env, t: seq<Event>, j: nat): seq<Bytes>
    requires j < |t|
  {
    var before, after := Values(env, t[..j]), Values(env, t[..j + 1]);
    if |before| <= |after| then after[|before|..] else []
  }

  /** From position `from` on, no streaming request was clean. */
  ghost predicate NoneClean(env: Env, from: nat, t: seq<Event>) {
    forall i | from <= i < |t| && Streams(t[i]) :: !CleanCall(env, t, i)
  }

  /** From position `from` on, the request at `j` is the last streaming one, it is `e`, it was
      clean, and none before it was. */
  ghost predicate FirstCleanAt(env: Env, from: nat, t: seq<Event>, e: Event, j: nat) {
    && from <= j < |t| && t[j] == e && CleanCall(env, t, j)
    && forall i | from <= i < |t| && Streams(t[i]) && i != j :: i < j && !CleanCall(env, t, i)
  }

  ghost predicate StopsAtFirstClean(env: Env, from: nat, t: seq<Event>, e: Event) {
    exists j :: FirstCleanAt(env, from, t, e, j)
  }

  /** The last streaming request is at `j`, and `error` is the runtime's error for it if there
      was one, and otherwise the last error object that it completed. */
  ghost predicate FailsWith(env: Env, from: nat, t: seq<Event>, e: Event, error: Error, j: nat) {
    && from <= j < |t| && t[j] == e
    && (forall i | j < i < |t| :: !Streams(t[i]))
    && (match env.container(j).err
        case Some(m) => error == Plain(m)
        case None =>
          var last := LastError(env, NewlyCompleted(env, t, j));
          last.Some? && error == Plain(last.value.error))
  }

  lemma CleanStreams(env: Env, t: seq<Event>, j: nat)
    requires CleanCall(env, t, j)
    ensures j < |t| && Streams(t[j])
  {
  }

  lemma CleanStable(env: Env, t: seq<Event>, u: seq<Event>, j: nat)
    requires t <= u && j < |t|
    ensures CleanCall(env, t, j) <==> CleanCall(env, u, j)
  {
    hide Values;
    assert t[..j] == u[..j] && t[..j + 1] == u[..j + 1];
  }

  lemma NewlyCompletedIs(env: Env, w: World, e: Event, u: seq<Event>)
    requires Synced(env, w) && Streams(e) && w.link.trace + [e] <= u
    ensures NewlyCompleted(env, u, |w.link.trace|) ==
            PiecesOf(w.writer.partial, env.container(|w.link.trace|).chunks).values
  {
    hide PiecesOf, Values;
    NewValues(env, w, e);
    assert u[..|w.link.trace|] == w.link.trace && u[..|w.link.trace| + 1] == w.link.trace + [e];
  }

  /** What the i-th and later attempts leave behind. A request is repeated until the first clean
      attempt or the third one; the answer is decided by the runtime's error and by the error
      objects that end in the bytes of the attempt, and by nothing else. */
  ghost predicate RetryOutcome(env: Env, w: World, e: Event, left: nat, r: Did<()>, tries: nat) {
    && Keeps(env, w, r.w, r.out.Halted?)
    && 1 <= tries <= left
    && Control(r.w.link.trace) == Control(w.link.trace) + Repeat(e, tries)
    && (!r.out.Halted? ==> r.w.writer.err == None)
    && (r.out.Returned? ==> StopsAtFirstClean(env, |w.link.trace|, r.w.link.trace, e))
    && (r.out.Failed? ==>
          && tries == left
          && NoneClean(env, |w.link.trace|, r.w.link.trace)
          && exists j :: FailsWith(env, |w.link.trace|, r.w.link.trace, e, r.out.error, j))
  }

  lemma {:induction false} RetryFacts(env: Env, w: World, e: Event, i: nat) returns (tries: nat)
    requires i < 3 && Sound(env, w) && Streams(e)
    ensures RetryOutcome(env, w, e, 3 - i, RetryFrom(env, w, e, i), tries)
    decreases 3 - i
  {
    hide Sound, SoundEnd, Control, CleanCall, RequestResult, LastError, PiecesOf, NewlyCompleted, Repeat;
    var w0 := ForgetError(w);
    var n := |w.link.trace|;
    ForgetKeeps(env, w);
    RequestKeeps(env, w0, e);
    var r := RequestResult(env, w0, e);
    var t := r.w.link.trace;
    RepeatOnce(e);
    assert t[n] == (w0.link.trace + [e])[n] == e;
    tries := 1;
    if r.out.Halted? {
    } else {
      SyncedOf(env, w0);
      CleanMeans(env, w0, e, t);
      NewlyCompletedIs(env, w0, e, t);
      RequestReply(env, w0, e);
      var w1 := ForgetError(r.w);
      ForgetKeeps(env, r.w);
      KeepsTrans(env, w, w0, r.w, false);
      if r.out.Returned? && r.w.writer.err.None? {
        KeepsTrans(env, w, r.w, w1, false);
        assert FirstCleanAt(env, n, t, e, n);
      } else if i == 2 {
        KeepsTrans(env, w, r.w, w1, false);
        assert FailsWith(env, n, t, e, RetryFrom(env, w, e, i).out.error, n);
      } else {
        var more := RetryFacts(env, w1, e, i + 1);
        var s := RetryFrom(env, w1, e, i + 1);
        tries := 1 + more;
        KeepsTrans(env, w, r.w, w1, false);
        KeepsTrans(env, w, w1, s.w, s.out.Halted?);
        RepeatMore(Control(w.link.trace), e, more);
        RetryExtends(env, n, t, s, e);
      }
    }
  }

  lemma RepeatOnce(e: Event)
    ensures Repeat(e, 1) == [e]
  {
    assert Repeat(e, 0) == [];
  }

  lemma RepeatMore(t: seq<Event>, e: Event, n: nat)
    ensures t + [e] + Repeat(e, n) == t + Repeat(e, 1 + n)
  {
    assert Repeat(e, 1 + n) == [e] + Repeat(e, n);
  }

  lemma SyncedOf(env: Env, w: World)
    requires Sound(env, w)
    ensures Synced(env, w)
  {
  }

  lemma RequestReply(env: Env, w: World, e: Event)
    ensures var r, reply := RequestResult(env, w, e), env.container(|w.link.trace|);
            !r.out.Halted? ==>
              && (r.out.Returned? <==> reply.err.None?)
              && (r.out.Failed? ==> r.out == Failed(Plain(reply.err.value)))
  {
    hide StreamResult;
  }

  /** An attempt at `n` that was not clean, and the later attempts after it. */
  lemma RetryExtends(env: Env, n: nat, t: seq<Event>, s: Did<()>, e: Event)
    requires n < |t| && t[n] == e && !CleanCall(env, t, n)
    requires forall i | n < i < |t| :: t[i].LogReq?
    requires t <= s.w.link.trace
    ensures s.out.Returned? && StopsAtFirstClean(env, |t|, s.w.link.trace, e) ==>
              StopsAtFirstClean(env, n, s.w.link.trace, e)
    ensures NoneClean(env, |t|, s.w.link.trace) ==> NoneClean(env, n, s.w.link.trace)
    ensures s.out.Failed? && (exists j :: FailsWith(env, |t|, s.w.link.trace, e, s.out.error, j)) ==>
              exists j :: FailsWith(env, n, s.w.link.trace, e, s.out.error, j)
  {
    hide CleanCall, LastError, NewlyCompleted;
    var u := s.w.link.trace;
    CleanStable(env, t, u, n);
    assert forall i | n <= i < |t| :: u[i] == t[i];
    if s.out.Returned? && StopsAtFirstClean(env, |t|, u, e) {
      var j :| FirstCleanAt(env, |t|, u, e, j);
      assert FirstCleanAt(env, n, u, e, j);
    }
    if s.out.Failed? {
      if j :| FailsWith(env, |t|, u, e, s.out.error, j) {
        assert FailsWith(env, n, u, e, s.out.error, j);
      }
    }
  }

  // ---------------------------------------------------------------- the push loop

  /** One tag request and then the push attempts, for each name from the i-th on. */
  function PushScript(args: BuildArgs, imageID: string, i: nat, tries: seq<nat>): seq<Event>
    requires i + |tries| <= |args.tagNames|
    decreases |tries|
  {
    if tries == [] then []
    else
      [TagEvent(args, imageID, args.tagNames[i])] + Repeat(PushEvent(args, args.tagNames[i]), tries[0])
      + PushScript(args, imageID, i + 1, tries[1..])
  }

  /** Between positions `lo` and `hi` the first `k` names were tagged and then pushed, in list
      order, each with a first clean attempt that was the last attempt. */
  ghost predicate Pushed(env: Env, args: BuildArgs, imageID: string, t: seq<Event>, k: nat, lo: nat, hi: nat)
    requires k <= |args.tagNames| && hi <= |t|
    decreases k, 1
  {
    k == 0 || exists p, q :: lo <= p < q < hi && PushedAt(env, args, imageID, t, k, lo, hi, p, q)
  }

  ghost predicate PushedAt(env: Env, args: BuildArgs, imageID: string, t: seq<Event>, k: nat, lo: nat, hi: nat, p: nat, q: nat)
    requires 0 < k <= |args.tagNames| && p < q < hi <= |t|
    decreases k, 0
  {
    var name, repository := args.tagNames[k - 1], args.registry + "/" + args.repository;
    && t[p] == TagReq(imageID, repository, name) && env.container(p).err.None?
    && t[q] == PushReq(args.registry, repository, name, Auth("$token", args.pushToken)) && CleanCall(env, t, q)
    && (forall i | p <= i < hi && Streams(t[i]) && i != q :: i < q && !CleanCall(env, t, i))
    && Pushed(env, args, imageID, t, k - 1, lo, p)
  }

  lemma {:induction false} PushedStable(env: Env, args: BuildArgs, imageID: string, t: seq<Event>, u: seq<Event>, k: nat, lo: nat, hi: nat)
    requires k <= |args.tagNames| && hi <= |t| && t <= u
    requires Pushed(env, args, imageID, t, k, lo, hi)
    ensures Pushed(env, args, imageID, u, k, lo, hi)
    decreases k
  {
    hide CleanCall;
    if k > 0 {
      var p, q :| lo <= p < q < hi && PushedAt(env, args, imageID, t, k, lo, hi, p, q);
      PushedStable(env, args, imageID, t, u, k - 1, lo, p);
      forall i | p <= i < hi ensures CleanCall(env, u, i) <==> CleanCall(env, t, i) {
        CleanStable(env, t, u, i);
      }
      assert PushedAt(env, args, imageID, u, k, lo, hi, p, q);
    }
  }

  ghost predicate PushOneOutcome(env: Env, w: World, args: BuildArgs, imageID: string, tag: string, r: Did<()>, tries: nat) {
    var n := |w.link.trace|;
    && Keeps(env, w, r.w, r.out.Halted?)
    && w.link.trace + [TagEvent(args, imageID, tag)] <= r.w.link.trace
    && tries <= 3
    && Control(r.w.link.trace) ==
       Control(w.link.trace) + ([TagEvent(args, imageID, tag)] + Repeat(PushEvent(args, tag), tries))
    && (!r.out.Halted? ==> r.w.writer.err == None)
    && (!r.out.Failed? ==> 1 <= tries && env.container(n).err.None?)
    && (r.out.Returned? ==> StopsAtFirstClean(env, n + 1, r.w.link.trace, PushEvent(args, tag)))
    && (r.out.Failed? ==>
          && NoneClean(env, n, r.w.link.trace)
          && if tries == 0 then r.out.error.TagError? && env.container(n).err == Some(r.out.error.message)
             else r.out.error.PushError? && tries == 3 && env.container(n).err.None?)
  }

  lemma PushOneFacts(env: Env, w: World, args: BuildArgs, imageID: string, tag: string) returns (tries: nat)
    requires Sound(env, w) && w.writer.err == None
    ensures PushOneOutcome(env, w, args, imageID, tag, PushOneResult(env, w, args, imageID, tag), tries)
  {
    hide Sound, SoundEnd, Control, CleanCall, RetryFrom;
    var e, n := TagEvent(args, imageID, tag), |w.link.trace|;
    var w1 := Emit(w, e);
    EmitKeeps(env, w, e);
    if env.container(n).err.Some? {
      tries := 0;
    } else {
      var w2 := ForgetError(w1);
      ForgetKeeps(env, w1);
      KeepsTrans(env, w, w1, w2, false);
      tries := RetryFacts(env, w2, PushEvent(args, tag), 0);
      var r := RetryResult(env, w2, PushEvent(args, tag));
      KeepsTrans(env, w, w2, r.w, r.out.Halted?);
      assert w2.link.trace == w.link.trace + [e];
      assert r.w.link.trace[n] == e;
    }
  }

  ghost predicate PushOutcome(env: Env, w: World, args: BuildArgs, imageID: string, i: nat, lo: nat, r: Did<()>, tries: seq<nat>)
    requires i <= |args.tagNames|
  {
    && Keeps(env, w, r.w, r.out.Halted?)
    && i + |tries| <= |args.tagNames|
    && Control(r.w.link.trace) == Control(w.link.trace) + PushScript(args, imageID, i, tries)
    && (!r.out.Halted? ==> r.w.writer.err == None)
    && (forall k | 0 <= k < |tries| - 1 :: 1 <= tries[k] <= 3)
    && (r.out.Returned? ==>
          && i + |tries| == |args.tagNames|
          && (tries != [] ==> 1 <= tries[|tries| - 1] <= 3)
          && Pushed(env, args, imageID, r.w.link.trace, |args.tagNames|, lo, |r.w.link.trace|))
    && (!r.out.Returned? ==>
          && tries != []
          && tries[|tries| - 1] <= 3
          && StoppedAt(env, args, imageID, r, i + |tries| - 1, lo, tries[|tries| - 1]))
  }

  ghost predicate StoppedAt(env: Env, args: BuildArgs, imageID: string, r: Did<()>, k: nat, lo: nat, tries: nat)
    requires k < |args.tagNames|
  {
    exists hi :: PushedBefore(env, args, imageID, r, k, lo, hi, tries)
  }

  /** The push loop stopped at name number `k`: the names before it are pushed, and if it
      stopped with an error no later request was clean. */
  ghost predicate PushedBefore(env: Env, args: BuildArgs, imageID: string, r: Did<()>, k: nat, lo: nat, hi: nat, tries: nat)
    requires k < |args.tagNames|
  {
    && hi < |r.w.link.trace|
    && Pushed(env, args, imageID, r.w.link.trace, k, lo, hi)
    && r.w.link.trace[hi] == TagEvent(args, imageID, args.tagNames[k])
    && (r.out.Failed? ==>
          && NoneClean(env, hi, r.w.link.trace)
          && (tries == 0 || tries == 3)
          && (tries == 0 <==> r.out.error.TagError?) && (tries != 0 <==> r.out.error.PushError?)
          && (tries == 0 <==> env.container(hi).err.Some?))
  }

  lemma PushAdvances(env: Env, w: World, args: BuildArgs, imageID: string, i: nat, lo: nat, r: Did<()>, one: nat)
    requires i < |args.tagNames| && lo <= |w.link.trace|
    requires Pushed(env, args, imageID, w.link.trace, i, lo, |w.link.trace|)
    requires PushOneOutcome(env, w, args, imageID, args.tagNames[i], r, one)
    ensures r.out.Returned? ==> Pushed(env, args, imageID, r.w.link.trace, i + 1, lo, |r.w.link.trace|)
    ensures !r.out.Returned? ==> StoppedAt(env, args, imageID, r, i, lo, one)
  {
    hide Sound, SoundEnd, Control, CleanCall;
    var tag, n, u := args.tagNames[i], |w.link.trace|, r.w.link.trace;
    assert (w.link.trace + [TagEvent(args, imageID, tag)])[n] == u[n];
    PushedStable(env, args, imageID, w.link.trace, u, i, lo, n);
    if r.out.Returned? {
      var q :| FirstCleanAt(env, n + 1, u, PushEvent(args, tag), q);
      assert PushedAt(env, args, imageID, u, i + 1, lo, |u|, n, q);
    } else {
      assert PushedBefore(env, args, imageID, r, i, lo, n, one);
    }
  }

  lemma PushScriptStep(args: BuildArgs, imageID: string, i: nat, one: nat, more: seq<nat>)
    requires i + 1 + |more| <= |args.tagNames|
    ensures PushScript(args, imageID, i, [one] + more) ==
            [TagEvent(args, imageID, args.tagNames[i])] + Repeat(PushEvent(args, args.tagNames[i]), one)
            + PushScript(args, imageID, i + 1, more)
  {
    assert ([one] + more)[1..] == more;
  }

  /** One name pushed, and then what the loop did from the next one on. */
  lemma PushJoin(env: Env, w: World, args: BuildArgs, imageID: string, i: nat, lo: nat, r: Did<()>, one: nat, s: Did<()>, more: seq<nat>)
    requires i < |args.tagNames| && r.out.Returned?
    requires PushOneOutcome(env, w, args, imageID, args.tagNames[i], r, one)
    requires PushOutcome(env, r.w, args, imageID, i + 1, lo, s, more)
    ensures PushOutcome(env, w, args, imageID, i, lo, s, [one] + more)
  {
    hide Keeps, Control, Pushed, StoppedAt, StopsAtFirstClean, NoneClean, PushScript, Repeat;
    var tries := [one] + more;
    KeepsTrans(env, w, r.w, s.w, s.out.Halted?);
    assert forall k | 0 <= k < |more| :: tries[k + 1] == more[k];
    PushScriptStep(args, imageID, i, one, more);
  }

  /** The push loop, from name number `i` on, after the names before it were pushed. */
  lemma {:induction false} PushFacts(env: Env, w: World, args: BuildArgs, imageID: string, i: nat, lo: nat) returns (tries: seq<nat>)
    requires Sound(env, w) && w.writer.err == None && i <= |args.tagNames|
    requires lo <= |w.link.trace| && Pushed(env, args, imageID, w.link.trace, i, lo, |w.link.trace|)
    ensures PushOutcome(env, w, args, imageID, i, lo, PushFrom(env, w, args, imageID, i), tries)
    decreases |args.tagNames| - i
  {
    hide Sound, SoundEnd, Control, CleanCall, PushOneResult, Pushed, StoppedAt, StopsAtFirstClean, NoneClean, PushScript, Repeat;
    if i == |args.tagNames| {
      tries := [];
      KeepsSelf(env, w);
      assert PushScript(args, imageID, i, tries) == [] by { PushScriptEmpty(args, imageID, i); }
    } else {
      var one := PushOneFacts(env, w, args, imageID, args.tagNames[i]);
      var r := PushOneResult(env, w, args, imageID, args.tagNames[i]);
      PushAdvances(env, w, args, imageID, i, lo, r, one);
      if r.out.Returned? {
        var more := PushFacts(env, r.w, args, imageID, i + 1, lo);
        var s := PushFrom(env, r.w, args, imageID, i + 1);
        tries := [one] + more;
        PushJoin(env, w, args, imageID, i, lo, r, one, s, more);
      } else {
        tries := [one];
        PushScriptStep(args, imageID, i, one, []);
        PushScriptEmpty(args, imageID, i + 1);
        assert [one] + [] == [one];
      }
    }
  }

  lemma PushScriptEmpty(args: BuildArgs, imageID: string, i: nat)
    requires i <= |args.tagNames|
    ensures PushScript(args, imageID, i, []) == []
  {
  }

  lemma KeepsSelf(env: Env, w: World)
    requires Sound(env, w)
    ensures Keeps(env, w, w, false)
  {
  }
}
