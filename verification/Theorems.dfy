/** What every run of the builder guarantees, whatever the build manager, the container runtime
    and the byte streams do. */
module Theorems {
  import opened JsonScanner
  import opened Framing
  import opened Outside
  import opened DockerLogWriter
  import opened BuildContext
  import opened Trace
  import opened Soundness
  import opened Retries
  import opened Stages
  import opened Finish
  import opened Runs
  import GrpcBuild

  function FinalTrace(env: Env, args: BuildArgs, l: Link): seq<Event> {
    RunResult(env, NewBuilder(l), args).b.w.link.trace
  }

  // ---------------------------------------------------------------- completion

  /** Completion is reported only after the package was downloaded and its Dockerfile parsed, then
      the base image was pulled cleanly (or needs no pull), then the image was built cleanly from
      that directory and Dockerfile, then that image was tagged with every name and every name
      pushed cleanly in list order, and then the heartbeat was stopped. Images are removed only
      after completion was accepted. This holds at every position of the trace, so also if the
      process ends there. */
  lemma CompletionSafety(env: Env, args: BuildArgs, l: Link)
    requires Registered(l)
    ensures var b, t := RunResult(env, NewBuilder(l), args).b, FinalTrace(env, args, l);
            && (forall i | 0 <= i < |t| && ReportsCompletion(t[i]) ::
                  Unpacked(env, args, b, t[..i]) && ReadyToComplete(env, args, b, t[..i]))
            && (forall i | 0 <= i < |t| && t[i].RemoveReq? :: AcceptedCompletionBefore(env, 0, t, i))
  {
    hide Sound, SoundEnd, Keeps, RunResult, ReadyToComplete, Phases;
    RunFacts(env, args, l);
    RunUnpacks(env, args, l);
    var r := RunResult(env, NewBuilder(l), args);
    var b, t := r.b, r.b.w.link.trace;
    KeepsPrefix(env, NewBuilder(l).w, b.w, r.out.Halted?);
    assert t[0] == l.trace[0];
    forall i | 0 <= i < |t| && ReportsCompletion(t[i]) ensures Unpacked(env, args, b, t[..i]) {
      StoppedBefore(env, args, b, t[..i]);
      assert i != 1 && i != 0;
    }
  }

  lemma StoppedBefore(env: Env, args: BuildArgs, b: Builder, t: seq<Event>)
    requires ReadyToComplete(env, args, b, t)
    ensures t != [] && t[|t| - 1] == StopHeartbeat
  {
    hide BasePulled, BuiltAt, AllPushed;
  }


  // ---------------------------------------------------------------- phases

  /** A run reports at most seven phases. They never go back, never skip a value from UNPACKING
      on, and are never ERROR. The k-th one carries number k and the job token. */
  lemma PhaseProtocol(env: Env, args: BuildArgs, l: Link)
    requires Registered(l)
    ensures var t := FinalTrace(env, args, l);
            var p := Phases(t);
            && |p| <= 7
            && (|p| > 0 ==> p[0] == UNPACKING)
            && ERROR !in p
            && (forall k | 0 <= k < |p| - 1 :: WireValue(p[k]) <= WireValue(p[k + 1]) <= WireValue(p[k]) + 1)
            && (forall i | 0 <= i < |t| && t[i].PhaseReq? ::
                  t[i].number as int == PhaseCount(t[..i]) + 1 && t[i].token == l.jobToken)
  {
    hide Sound, SoundEnd, Keeps, RunResult, Phases, PhaseCount, ToInt32, WireValue;
    RunFacts(env, args, l);
    var r := RunResult(env, NewBuilder(l), args);
    var t := r.b.w.link.trace;
    LedgerOf(env, NewBuilder(l).w, r.b.w, r.out.Halted?);
    PhaseOrder(Phases(t));
    forall i | 0 <= i < |t| && t[i].PhaseReq?
      ensures t[i].number as int == PhaseCount(t[..i]) + 1 && t[i].token == l.jobToken
    {
      NumberedAt(env, l.jobToken, t, i);
      PhaseCountIs(t[..i]);
      PhasesPrefix(t, i);
      GrpcBuild.NumberSurvives(PhaseCount(t[..i]) + 1);
    }
  }

  lemma PhaseOrder(p: seq<WirePhase>)
    requires p <= PLAIN_PHASES || p <= PRIMED_PHASES
    ensures |p| <= 7 && (|p| > 0 ==> p[0] == UNPACKING) && ERROR !in p
    ensures forall k | 0 <= k < |p| - 1 :: WireValue(p[k]) <= WireValue(p[k + 1]) <= WireValue(p[k]) + 1
  {
    var all := if p <= PLAIN_PHASES then PLAIN_PHASES else PRIMED_PHASES;
    assert forall k | 0 <= k < |p| :: p[k] == all[k];
  }

  lemma LedgerOf(env: Env, w: World, v: World, halted: bool)
    requires Keeps(env, w, v, halted)
    ensures Ledger(env, v.link) && v.link.jobToken == w.link.jobToken
  {
    hide Ledger, Synced;
  }

  lemma {:induction false} PhaseCountIs(t: seq<Event>)
    ensures PhaseCount(t) == |Phases(t)|
    decreases |t|
  {
    if t != [] {
      PhaseCountIs(t[..|t| - 1]);
    }
  }

  lemma PhasesPrefix(t: seq<Event>, i: nat)
    requires i <= |t|
    ensures |Phases(t[..i])| <= |Phases(t)|
  {
    hide Phases;
    assert t == t[..i] + t[i..];
    TallyAppend(t[..i], t[i..]);
  }

  /** At most six pull requests, and at most three push requests for each name. */
  lemma TransferBound(env: Env, args: BuildArgs, l: Link)
    requires Registered(l)
    ensures Transfers(FinalTrace(env, args, l)) <= 6 + 3 * |args.tagNames|
  {
    hide Sound, SoundEnd, Keeps, RunResult, Transfers;
    RunFacts(env, args, l);
  }

  /** A retried request succeeds exactly if one of its attempts was clean. It is made at most
      three times, and not again after a clean attempt. */
  lemma RetryDecidedByStream(env: Env, w: World, e: Event)
    requires Sound(env, w) && Streams(e)
    ensures var r, from := RetryResult(env, w, e), |w.link.trace|;
            var t := r.w.link.trace;
            !r.out.Halted? ==>
              && (r.out.Returned? <==> exists j :: from <= j < |t| && CleanCall(env, t, j))
              && (forall i, j | from <= i < j < |t| && CleanCall(env, t, i) :: !Streams(t[j]))
              && exists tries :: 1 <= tries <= 3 && Control(t) == Control(w.link.trace) + Repeat(e, tries)
  {
    hide Sound, SoundEnd, Keeps, RetryFrom, Control, Values, Repeat;
    var tries := RetryFacts(env, w, e, 0);
    var r, from := RetryResult(env, w, e), |w.link.trace|;
    var t := r.w.link.trace;
    if r.out.Returned? {
      var k :| FirstCleanAt(env, from, t, e, k);
      assert CleanCall(env, t, k);
      forall i, j | from <= i < j < |t| && CleanCall(env, t, i) ensures !Streams(t[j]) {
        assert i == k;
      }
    }
  }

  lemma RepeatIs(e: Event, n: nat)
    requires 1 <= n <= 3
    ensures Repeat(e, n) == if n == 1 then [e] else if n == 2 then [e, e] else [e, e, e]
  {
    assert Repeat(e, 0) == [];
    assert Repeat(e, 1) == [e] + Repeat(e, 0);
    assert n > 1 ==> Repeat(e, 2) == [e] + Repeat(e, 1);
    assert n > 2 ==> Repeat(e, 3) == [e] + Repeat(e, 2);
  }

  /** A retried request fails only after three attempts of which none was clean; it is made once,
      twice or three times, whatever its outcome. */
  lemma FailsAfterThree(env: Env, w: World, e: Event)
    requires Sound(env, w) && Streams(e)
    ensures var r := RetryResult(env, w, e);
            var before, t := Control(w.link.trace), r.w.link.trace;
            && Control(t) in {before + [e], before + [e, e], before + [e, e, e]}
            && (r.out.Failed? ==> Control(t) == before + [e, e, e] && NoneClean(env, |w.link.trace|, t))
  {
    hide Sound, SoundEnd, Keeps, RetryFrom, Control, Values, Repeat, FirstCleanAt, NoneClean;
    var tries := RetryFacts(env, w, e, 0);
    RepeatIs(e, tries);
  }

  /** Tagging and pushing one name fails with an error of the tag request, and then nothing was
      pushed, or after three pushes of just this name of which none was clean. */
  lemma PushFailsAfterThree(env: Env, w: World, args: BuildArgs, imageID: string, name: string)
    requires Clean(env, w)
    ensures var r := PushOneResult(env, w, args, imageID, name);
            var before, t := Control(w.link.trace), r.w.link.trace;
            var repository := args.registry + "/" + args.repository;
            var tag := TagReq(imageID, repository, name);
            var push := PushReq(args.registry, repository, name, Auth("$token", args.pushToken));
            r.out.Failed? ==>
              && NoneClean(env, |w.link.trace|, t)
              && if env.container(|w.link.trace|).err.Some? then
                   r.out.error == TagError(env.container(|w.link.trace|).err.value) && Control(t) == before + [tag]
                 else
                   r.out.error.PushError? && Control(t) == before + [tag, push, push, push]
  {
    hide Sound, SoundEnd, Keeps, PushOneResult, Control, Repeat, StopsAtFirstClean, NoneClean;
    var tries := PushOneFacts(env, w, args, imageID, name);
    var push := PushEvent(args, name);
    if tries == 3 {
      RepeatIs(push, 3);
    }
    assert Repeat(push, 0) == [] by { NoRepeat(push); }
    var tag := [TagEvent(args, imageID, name)];
    assert tag + [] == tag && tag + [push, push, push] == [tag[0], push, push, push];
  }

  lemma NoRepeat(e: Event)
    ensures Repeat(e, 0) == []
  {
  }

  // ---------------------------------------------------------------- when a run ends the process

  /** A run ends the process exactly if a send failed, a streamed value was unreadable, or the
      decoder gave up on the streamed bytes. Then nothing is requested after a failed send, no
      entry is sent for an unreadable value or a later one, and nothing but log entries follows
      the last streaming request. */
  lemma HaltsExactly(env: Env, args: BuildArgs, l: Link)
    requires Registered(l)
    ensures var r := RunResult(env, NewBuilder(l), args);
            var t := r.b.w.link.trace;
            && (r.out.Halted? <==> Stops(env, t))
            && (forall i: nat | FailedSend(env, t, i) :: i == |t| - 1 && r.out.Halted?)
            && (forall k: nat | k < |Values(env, t)| && Unreadable(env, Values(env, t)[k]) ::
                  r.out.Halted? && LogEntries(t) <= Entries(env, Values(env, t)[..k]))
            && (r.out.Halted? ==> exists j :: EndsInStream(t, j))
  {
    hide RunResult, Ledger, Values, Entries, LogEntries, Unreadable, EndsInStream, PiecesOf, ChunksOf;
    var r := RunResult(env, NewBuilder(l), args);
    assert Keeps(env, NewBuilder(l).w, r.b.w, r.out.Halted?) by { RunFacts(env, args, l); }
  }

  // ---------------------------------------------------------------- log entries

  /** The log entries of a run are those that the JSON values in all the bytes streamed call
      for, in order: all of them if the run was not cut short, a prefix of them if it was. Each
      carries the job token and one more than the number of earlier sends that did not fail. */
  lemma LogProtocol(env: Env, args: BuildArgs, l: Link)
    requires Registered(l)
    ensures var r := RunResult(env, NewBuilder(l), args);
            var t := r.b.w.link.trace;
            && LogEntries(t) <= Entries(env, Values(env, t))
            && (!r.out.Halted? ==> LogEntries(t) == Entries(env, Values(env, t)))
            && (forall i | 0 <= i < |t| && t[i].LogReq? ::
                  t[i].number == ToInt32(Sends(env, t[..i]) + 1) && t[i].token == l.jobToken)
  {
    hide RunResult, ToInt32, Values, PiecesOf, ChunksOf, LogEntries, Entries, Sends, PhaseCount, Numbered;
    var r := RunResult(env, NewBuilder(l), args);
    var t := r.b.w.link.trace;
    assert Keeps(env, NewBuilder(l).w, r.b.w, r.out.Halted?) by { RunFacts(env, args, l); }
    LedgerOf(env, NewBuilder(l).w, r.b.w, r.out.Halted?);
    ValuesOfPieces(env, t);
    forall i | 0 <= i < |t| && t[i].LogReq?
      ensures t[i].number == ToInt32(Sends(env, t[..i]) + 1) && t[i].token == l.jobToken
    {
      NumberedAt(env, l.jobToken, t, i);
    }
  }

  /** No send fails and none meets the end of the stream. */
  ghost predicate AllSent(env: Env, t: seq<Event>) {
    forall i | 0 <= i < |t| && t[i].LogReq? :: env.send(i).Sent?
  }

  lemma {:induction false} SendsAreEntries(env: Env, t: seq<Event>)
    requires AllSent(env, t)
    ensures Sends(env, t) == |LogEntries(t)|
    decreases |t|
  {
    if t != [] {
      SendsAreEntries(env, t[..|t| - 1]);
    }
  }

  /** As long as every earlier send was delivered, the k-th message carries number k and the k-th
      entry that the byte stream calls for, however the stream was cut, and whatever becomes of
      this send and of later ones. */
  lemma EndToEndNumbering(env: Env, args: BuildArgs, l: Link, i: nat)
    requires Registered(l) && i < |FinalTrace(env, args, l)|
    requires AllSent(env, FinalTrace(env, args, l)[..i]) && FinalTrace(env, args, l)[i].LogReq?
    ensures var t := FinalTrace(env, args, l);
            var k := |LogEntries(t[..i])|;
            && t[i].number == ToInt32(k + 1)
            && k < |Entries(env, Values(env, t))|
            && t[i].entry == Entries(env, Values(env, t))[k]
  {
    hide RunResult, ToInt32, Values, Entries;
    LogProtocol(env, args, l);
    var t := FinalTrace(env, args, l);
    SendsAreEntries(env, t[..i]);
    EntryAt(t, i);
  }

  lemma {:induction false} EntryAt(t: seq<Event>, i: nat)
    requires i < |t| && t[i].LogReq?
    ensures var k := |LogEntries(t[..i])|;
            k < |LogEntries(t)| && LogEntries(t)[k] == t[i].entry
    decreases |t|
  {
    if i < |t| - 1 {
      EntryAt(t[..|t| - 1], i);
      assert t[..|t| - 1][..i] == t[..i];
    }
  }

  // ---------------------------------------------------------------- stream errors

  /** No stage starts with an error recorded by an earlier one. */
  lemma NoStaleErrors(env: Env, args: BuildArgs, l: Link)
    requires Registered(l)
    ensures var unpacked := UnpackResult(env, NewBuilder(l), args);
            unpacked.out.Returned? ==>
              && unpacked.b.w.writer.err == None
              && var pulled := PullResult(env, unpacked.b, args);
                 pulled.out.Returned? ==>
                   && pulled.b.w.writer.err == None
                   && var cached := CacheResult(env, pulled.b, args);
                      cached.out.Returned? ==>
                        && cached.b.w.writer.err == None
                        && var built := BuildResult(env, cached.b, args);
                           built.out.Returned? ==>
                             && built.b.w.writer.err == None
                             && var pushed := PushResult(env, built.b, args);
                                pushed.out.Returned? ==> pushed.b.w.writer.err == None
  {
    hide Sound, SoundEnd, Keeps, UnpackResult, PullResult, CacheResult, BuildResult, PushResult, Grew;
    NewBuilderIsClean(env, l);
    var unpacked := UnpackResult(env, NewBuilder(l), args);
    UnpackFacts(env, NewBuilder(l), args);
    if unpacked.out.Returned? {
      KeepsSound(env, NewBuilder(l).w, unpacked.b.w);
      var pulled := PullResult(env, unpacked.b, args);
      PullFacts(env, unpacked.b, args);
      if pulled.out.Returned? {
        KeepsSound(env, unpacked.b.w, pulled.b.w);
        var cached := CacheResult(env, pulled.b, args);
        CacheFacts(env, pulled.b, args);
        if cached.out.Returned? {
          KeepsSound(env, pulled.b.w, cached.b.w);
          var built := BuildResult(env, cached.b, args);
          BuildFacts(env, cached.b, args);
          if built.out.Returned? {
            KeepsSound(env, cached.b.w, built.b.w);
            PushStageFacts(env, built.b, args);
          }
        }
      }
    }
  }

  /** A build that fails without an error from the runtime fails with the last error object that
      ended in the bytes of its own request. */
  lemma BuildErrorIsItsOwn(env: Env, w: World, args: BuildArgs, dir: string, cacheTag: string)
    requires Clean(env, w)
    ensures var r, n := ExecuteBuildResult(env, w, args, dir, cacheTag), |w.link.trace|;
            r.out.Failed? ==>
              && n < |r.w.link.trace|
              && r.out.error == BuildFailed(
                   if env.container(n).err.Some? then env.container(n).err.value
                   else match LastError(env, NewlyCompleted(env, r.w.link.trace, n))
                        case Some(m) => m.error
                        case None => "")
              && (env.container(n).err.None? ==> LastError(env, NewlyCompleted(env, r.w.link.trace, n)).Some?)
  {
    hide Sound, Control, RequestResult, LastError, NewlyCompleted, PiecesOf, OnlyLogs, Keeps;
    var e, n := BuildEvent(env, args, dir, cacheTag), |w.link.trace|;
    var r := RequestResult(env, w, e);
    RequestKeeps(env, w, e);
    RequestReply(env, w, e);
    SyncedOf(env, w);
    if !r.out.Halted? {
      NewlyCompletedIs(env, w, e, r.w.link.trace);
    }
  }

  // ---------------------------------------------------------------- the cache tag

  /** The cache stage sets the cache tag exactly if one of its pulls was clean, and then that
      pull was of this very tag. */
  lemma CacheTagMeansPulled(env: Env, b: Builder, args: BuildArgs)
    requires Clean(env, b.w) && b.cacheTag == ""
    ensures var r, from := CacheResult(env, b, args), |b.w.link.trace|;
            var t, tag := r.b.w.link.trace, r.b.cacheTag;
            r.out.Returned? ==>
              && (tag != "" <==> exists j :: from <= j < |t| && CleanCall(env, t, j))
              && (forall j | from <= j < |t| && CleanCall(env, t, j) :: t[j] == PullCacheEvent(args, tag))
              && CacheFrom(args, tag) == if tag == "" then [] else [args.FullRepoName() + ":" + tag]
  {
    hide Sound, SoundEnd, CacheResult, StageKeeps, Grew, Values;
    CacheFacts(env, b, args);
    var r, from := CacheResult(env, b, args), |b.w.link.trace|;
    var t := r.b.w.link.trace;
    if r.out.Returned? && r.b.cacheTag != "" {
      var j :| FirstCleanAt(env, from, t, PullCacheEvent(args, r.b.cacheTag), j);
      assert CleanCall(env, t, j);
    }
  }

  /** How often the removal of the cached image is requested in a whole run: never if the run
      does not finish or there is no cached image; once if there is one, and once more for each
      of the base image and the built image that has the very same name. */
  lemma CachedImageRemovals(env: Env, args: BuildArgs, l: Link)
    requires Registered(l)
    ensures var r := RunResult(env, NewBuilder(l), args);
            var name, m := args.registry + "/" + args.repository + ":" + r.b.cacheTag, r.b.metadata;
            var base := if m.baseImageTag != "" then m.baseImage + ":" + m.baseImageTag else m.baseImage;
            multiset(Removals(r.b.w.link.trace))[name] ==
              if !r.out.Returned? then 0
              else (if r.b.cacheTag != "" then 1 else 0)
                   + (if base == name then 1 else 0)
                   + (if r.out.value.imageID == name then 1 else 0)
  {
    hide Sound, SoundEnd, Keeps, RunResult, Removals;
    RunFacts(env, args, l);
    var r := RunResult(env, NewBuilder(l), args);
    if r.out.Returned? {
      var names := CleanupNames(args, r.b.metadata, r.b.cacheTag, r.out.value.imageID);
      var others := names[|names| - 2..];
      var cache := names[..|names| - 2];
      assert names == cache + others;
      assert multiset(names) == multiset(cache) + multiset(others);
      assert multiset(others) == multiset{others[0], others[1]};
    }
  }
}
