/** A build manager that accepts a phase only if it is later than the last one it accepted turns
    down the two cache phases, which share the wire value of Pulling. No run fails because of it. */
module Tolerance {
  import opened Outside
  import opened DockerLogWriter
  import opened BuildContext
  import opened Trace
  import opened Soundness
  import opened Retries
  import opened Stages
  import opened Finish
  import opened Runs
  import opened Theorems
  import GrpcBuild

  /** The wire value of the last phase that was accepted, WAITING at first. */
  function LastAccepted(env: Env, t: seq<Event>): nat {
    if t == [] then 0
    else
      var n := |t| - 1;
      if t[n].PhaseReq? && env.setPhase(n).PhaseReply? && env.setPhase(n).success then WireValue(t[n].phase)
      else LastAccepted(env, t[..n])
  }

  predicate StrictAt(env: Env, t: seq<Event>, i: nat)
    requires i < |t|
  {
    t[i].PhaseReq? ==>
      env.setPhase(i) == PhaseReply(WireValue(t[i].phase) > LastAccepted(env, t[..i]), t[i].number)
  }

  /** The manager answers every phase update, echoes its number, and accepts it exactly if it is
      strictly later than the last one it accepted. */
  ghost predicate StrictManager(env: Env, t: seq<Event>) {
    forall i: nat | i < |t| :: StrictAt(env, t, i)
  }

  /** The latest of some phases. */
  function Latest(p: seq<WirePhase>): nat {
    if p == [] then 0
    else
      var m, v := Latest(p[..|p| - 1]), WireValue(p[|p| - 1]);
      if v > m then v else m
  }

  lemma StrictPrefix(env: Env, t: seq<Event>, u: seq<Event>)
    requires StrictManager(env, u) && t <= u
    ensures StrictManager(env, t)
  {
    forall i: nat | i < |t| ensures StrictAt(env, t, i) {
      assert StrictAt(env, u, i);
      assert t[..i] == u[..i];
    }
  }

  /** The last phase accepted is the latest phase reported. */
  lemma {:induction false} AcceptedIsLatest(env: Env, t: seq<Event>)
    requires StrictManager(env, t)
    ensures LastAccepted(env, t) == Latest(Phases(t))
    decreases |t|
  {
    if t != [] {
      var n := |t| - 1;
      StrictPrefix(env, t[..n], t);
      AcceptedIsLatest(env, t[..n]);
      assert StrictAt(env, t, n);
      if t[n].PhaseReq? {
        assert Phases(t)[..|Phases(t)| - 1] == Phases(t[..n]);
      }
    }
  }

  /** An update to a phase later than all before it is accepted. */
  lemma LaterIsAccepted(env: Env, w: World, phase: Phase, pull: PullMetadata, t: seq<Event>)
    requires Sound(env, w) && StrictManager(env, t)
    requires SetPhase(env, w, phase, pull).w.link.trace <= t
    requires Latest(Phases(w.link.trace)) < WireValue(GrpcBuild.PhaseEnum(phase))
    requires |Phases(w.link.trace)| <= 7
    ensures SetPhase(env, w, phase, pull).out.Returned?
  {
    hide Synced, Phases, Numbered, Sends, ToInt32, GrpcBuild.PhaseEnum, Latest;
    var n := |w.link.trace|;
    var e := PhaseReq(w.link.jobToken, ToInt32(w.link.phaseNum + 1), GrpcBuild.PhaseEnum(phase), pull);
    assert (w.link.trace + [e])[n] == t[n] == e;
    assert StrictAt(env, t, n);
    assert t[..n] == w.link.trace;
    StrictPrefix(env, w.link.trace, t);
    AcceptedIsLatest(env, w.link.trace);
    PhaseCountIs(w.link.trace);
    GrpcBuild.NumberSurvives(w.link.phaseNum + 1);
  }

  /** Only a phase update fails with this error. */
  lemma {:induction false} PushErrors(env: Env, w: World, args: BuildArgs, imageID: string, i: nat)
    requires i <= |args.tagNames|
    ensures PushFrom(env, w, args, imageID, i).out != Failed(RejectedPhase)
    decreases |args.tagNames| - i
  {
    hide RetryResult;
    if i < |args.tagNames| {
      PushErrors(env, PushOneResult(env, w, args, imageID, args.tagNames[i]).w, args, imageID, i + 1);
    }
  }

  // A stage can be turned down only by its own phase update, and that comes first in its trace.
  // So no stage is turned down whose phase is later than all before it.

  lemma UnpackNotRejected(env: Env, b: Builder, args: BuildArgs, t: seq<Event>)
    requires Clean(env, b.w) && StrictManager(env, t) && UnpackResult(env, b, args).b.w.link.trace <= t
    requires Latest(Phases(b.w.link.trace)) < 1 && |Phases(b.w.link.trace)| <= 7
    ensures UnpackResult(env, b, args).out != Failed(RejectedPhase)
  {
    hide Sound, Latest, Phases, StrictManager, GrpcBuild.SetPhaseResult;
    assert SetPhase(env, b.w, Unpacking, NO_PULL).w.link.trace <= UnpackResult(env, b, args).b.w.link.trace;
    LaterIsAccepted(env, b.w, Unpacking, NO_PULL, t);
  }

  lemma PullNotRejected(env: Env, b: Builder, args: BuildArgs, t: seq<Event>)
    requires Clean(env, b.w) && StrictManager(env, t) && PullResult(env, b, args).b.w.link.trace <= t
    requires Latest(Phases(b.w.link.trace)) < 2 && |Phases(b.w.link.trace)| <= 7
    ensures PullResult(env, b, args).out != Failed(RejectedPhase)
  {
    hide Sound, SoundEnd, Latest, Phases, StrictManager, RetryFrom, GrpcBuild.SetPhaseResult, StageKeeps, Grew, ToInt32, StopsAtFirstClean, NoneClean, PullBaseEvent;
    var pull := PullMetadataOf(args, b.metadata);
    var s := SetPhase(env, b.w, Pulling, pull);
    PhaseStep(env, b.w, Pulling, pull);
    if s.out.Returned? && b.metadata.baseImage != SCRATCH_IMAGE_NAME {
      var e := PullBaseEvent(args, b.metadata);
      PullBaseStreams(args, b.metadata);
      RetryStep(env, s.w, e);
      PrefixOf(env, s.w, RetryResult(env, s.w, e).w, RetryResult(env, s.w, e).out.Halted?);
    }
    assert s.w.link.trace <= PullResult(env, b, args).b.w.link.trace;
    LaterIsAccepted(env, b.w, Pulling, pull, t);
  }

  lemma CacheNotRejected(env: Env, b: Builder, args: BuildArgs)
    ensures CacheResult(env, b, args).out != Failed(RejectedPhase)
  {
    hide RetryFrom, FindCachedTagResult, GrpcBuild.SetPhaseResult;
  }

  lemma BuildNotRejected(env: Env, b: Builder, args: BuildArgs, t: seq<Event>)
    requires Clean(env, b.w) && StrictManager(env, t) && BuildResult(env, b, args).b.w.link.trace <= t
    requires Latest(Phases(b.w.link.trace)) < 3 && |Phases(b.w.link.trace)| <= 7
    ensures BuildResult(env, b, args).out != Failed(RejectedPhase)
  {
    hide Sound, SoundEnd, Keeps, Latest, Phases, StrictManager, RequestResult, GrpcBuild.SetPhaseResult, StageKeeps, Grew, ToInt32, BuiltAt, BuildEvent;
    var s := SetPhase(env, b.w, Building, NO_PULL);
    PhaseStep(env, b.w, Building, NO_PULL);
    var x := ExecuteBuildResult(env, s.w, args, b.buildpackDir, b.cacheTag);
    ExecuteFacts(env, s.w, args, b.buildpackDir, b.cacheTag);
    KeepsPrefix(env, s.w, x.w, x.out.Halted?);
    assert s.w.link.trace <= BuildResult(env, b, args).b.w.link.trace;
    LaterIsAccepted(env, b.w, Building, NO_PULL, t);
  }

  lemma PushNotRejected(env: Env, b: Builder, args: BuildArgs, t: seq<Event>)
    requires Clean(env, b.w) && StrictManager(env, t) && PushResult(env, b, args).b.w.link.trace <= t
    requires Latest(Phases(b.w.link.trace)) < 4 && |Phases(b.w.link.trace)| <= 7
    ensures PushResult(env, b, args).out != Failed(RejectedPhase)
  {
    hide Sound, SoundEnd, Keeps, Latest, Phases, StrictManager, PushFrom, GrpcBuild.SetPhaseResult, StageKeeps, Grew, ToInt32, AllPushed;
    var s := SetPhase(env, b.w, Pushing, NO_PULL);
    PhaseStep(env, b.w, Pushing, NO_PULL);
    var x := PushFrom(env, s.w, args, b.buildID, 0);
    PushLoopFacts(env, s.w, args, b.buildID);
    KeepsPrefix(env, s.w, x.w, x.out.Halted?);
    PushErrors(env, s.w, args, b.buildID, 0);
    assert s.w.link.trace <= PushResult(env, b, args).b.w.link.trace;
    LaterIsAccepted(env, b.w, Pushing, NO_PULL, t);
  }

  lemma LatestSnoc(p: seq<WirePhase>, x: WirePhase, m: nat)
    requires Latest(p) <= m && WireValue(x) <= m
    ensures Latest(p + [x]) <= m
  {
    hide WireValue;
    assert (p + [x])[..|p|] == p;
  }

  lemma {:induction false} LatestReached(p: seq<WirePhase>, x: WirePhase)
    requires x in p
    ensures WireValue(x) <= Latest(p)
    decreases |p|
  {
    hide WireValue;
    if x != p[|p| - 1] {
      assert x in p[..|p| - 1];
      LatestReached(p[..|p| - 1], x);
    }
  }

  lemma FinishTolerates(env: Env, b: Builder, args: BuildArgs)
    requires Clean(env, b.w)
    requires Latest(Phases(b.w.link.trace)) <= 2 && |Phases(b.w.link.trace)| <= 4
    requires StrictManager(env, FinishResult(env, b, args).b.w.link.trace)
    ensures FinishResult(env, b, args).out != Failed(RejectedPhase)
  {
    hide Sound, SoundEnd, Keeps, BuildResult, PushResult, CompleteResult, StrictManager, Latest, Phases, Transfers, Removals, SetPhase, AllPushed, CleanCall, LastEvents, BuildEvent;
    var t := FinishResult(env, b, args).b.w.link.trace;
    var p := Phases(b.w.link.trace);
    var built := BuildResult(env, b, args);
    BuildFacts(env, b, args);
    LatestSnoc(p, BUILDING, 3);
    LatestSnoc(p + [BUILDING], PUSHING, 4);
    var pushed := PushResult(env, built.b, args);
    if built.out.Returned? {
      assert Clean(env, built.b.w) by { KeepsSound(env, b.w, built.b.w); }
      PushStageFacts(env, built.b, args);
      KeepsPrefix(env, built.b.w, pushed.b.w, pushed.out.Halted?);
      if pushed.out.Returned? {
        assert Clean(env, pushed.b.w) by { KeepsSound(env, built.b.w, pushed.b.w); }
        CompleteFacts(env, pushed.b, args, pushed.out.value);
        CompleteTolerates(env, pushed.b, args, pushed.out.value, t);
      }
      PushNotRejected(env, built.b, args, t);
    }
    BuildNotRejected(env, b, args, t);
  }

  lemma CompleteTolerates(env: Env, b: Builder, args: BuildArgs, bmd: BuildMetadata, t: seq<Event>)
    requires Clean(env, b.w) && StrictManager(env, t)
    requires t == CompleteResult(env, b, args, bmd).b.w.link.trace
    requires Latest(Phases(b.w.link.trace)) <= 4 && |Phases(b.w.link.trace)| <= 7
    ensures CompleteResult(env, b, args, bmd).out != Failed(RejectedPhase)
  {
    hide Sound, SoundEnd, Keeps, StrictManager, Latest, Phases, Transfers, Removals, ToInt32;
    var w1 := Emit(b.w, StopHeartbeat);
    EmitStep(env, b.w, StopHeartbeat);
    GrewMeans(b.w.link.trace, w1.link.trace, [], 0);
    assert Phases(b.w.link.trace) + [] == Phases(b.w.link.trace);
    LaterIsAccepted(env, w1, Phase.Complete, NO_PULL, t);
  }

  lemma CacheTolerates(env: Env, b: Builder, args: BuildArgs)
    requires Clean(env, b.w) && b.cacheTag == "" && Phases(b.w.link.trace) == [UNPACKING, PULLING]
    requires StrictManager(env, FromCacheResult(env, b, args).b.w.link.trace)
    ensures var r := FromCacheResult(env, b, args);
            b.w.link.trace <= r.b.w.link.trace && r.out != Failed(RejectedPhase)
  {
    hide Sound, SoundEnd, Keeps, CacheResult, FinishResult, StrictManager, Phases, Transfers, Removals, StopsAtFirstClean, NoneClean;
    var cached := CacheResult(env, b, args);
    CacheFacts(env, b, args);
    CacheNotRejected(env, b, args);
    KeepsPrefix(env, b.w, cached.b.w, cached.out.Halted?);
    var p := [UNPACKING, PULLING];
    assert [] + [UNPACKING] + [PULLING] == p && p + [PULLING] + [PULLING] == p + [PULLING, PULLING];
    LatestSnoc([], UNPACKING, 2);
    LatestSnoc([] + [UNPACKING], PULLING, 2);
    LatestSnoc(p, PULLING, 2);
    LatestSnoc(p + [PULLING], PULLING, 2);
    if cached.out.Returned? {
      assert Clean(env, cached.b.w) by { KeepsSound(env, b.w, cached.b.w); }
      FinishTolerates(env, cached.b, args);
      FinishFacts(env, cached.b, args);
      KeepsPrefix(env, cached.b.w, FinishResult(env, cached.b, args).b.w, FinishResult(env, cached.b, args).out.Halted?);
    }
  }

  lemma PullTolerates(env: Env, b: Builder, args: BuildArgs)
    requires Clean(env, b.w) && b.cacheTag == "" && Phases(b.w.link.trace) == [UNPACKING]
    requires StrictManager(env, FromPullResult(env, b, args).b.w.link.trace)
    ensures var r := FromPullResult(env, b, args);
            b.w.link.trace <= r.b.w.link.trace && r.out != Failed(RejectedPhase)
  {
    assert Latest([]) == 0;
    hide Sound, SoundEnd, Keeps, PullResult, FromCacheResult, StrictManager, Latest, Phases, Transfers, Removals, SetPhase, BaseReady;
    var pulled := PullResult(env, b, args);
    PullFacts(env, b, args);
    LatestSnoc([], UNPACKING, 1);
    assert [] + [UNPACKING] == [UNPACKING];
    KeepsPrefix(env, b.w, pulled.b.w, pulled.out.Halted?);
    assert [UNPACKING] + [PULLING] == [UNPACKING, PULLING];
    if pulled.out.Returned? {
      assert Clean(env, pulled.b.w) by { KeepsSound(env, b.w, pulled.b.w); }
      CacheTolerates(env, pulled.b, args);
    }
    PullNotRejected(env, b, args, FromPullResult(env, b, args).b.w.link.trace);
  }

  lemma RunTolerates(env: Env, args: BuildArgs, l: Link)
    requires Registered(l) && StrictManager(env, FinalTrace(env, args, l))
    ensures RunResult(env, NewBuilder(l), args).out != Failed(RejectedPhase)
  {
    assert Latest([]) == 0;
    hide Sound, SoundEnd, Keeps, UnpackResult, FromPullResult, StrictManager, Latest, Phases, Transfers, Removals, SetPhase;
    var b := NewBuilder(l);
    NewBuilderIsClean(env, l);
    var unpacked := UnpackResult(env, b, args);
    UnpackFacts(env, b, args);
    assert [] + [UNPACKING] == [UNPACKING];
    if unpacked.out.Returned? {
      assert Clean(env, unpacked.b.w) by { KeepsSound(env, b.w, unpacked.b.w); }
      PullTolerates(env, unpacked.b, args);
    }
    UnpackNotRejected(env, b, args, FinalTrace(env, args, l));
  }

  /** Against such a manager no run fails because of a phase update; an update is accepted
      exactly if it is later than all before it, so the second and later PULLING updates, which
      are the cache phases, are turned down; and the counter stays in step with the updates. */
  lemma CachePhasesTolerated(env: Env, args: BuildArgs, l: Link)
    requires Registered(l) && StrictManager(env, FinalTrace(env, args, l))
    ensures var r := RunResult(env, NewBuilder(l), args);
            var t := r.b.w.link.trace;
            && r.out != Failed(RejectedPhase)
            && r.b.w.link.phaseNum == PhaseCount(t)
            && (forall i | 0 <= i < |t| && t[i].PhaseReq? ::
                  AcceptedAt(env, t, i) <==> Latest(Phases(t[..i])) < WireValue(t[i].phase))
            && (forall i | 0 <= i < |t| && t[i].PhaseReq? && t[i].phase == PULLING ::
                  AcceptedAt(env, t, i) ==> PULLING !in Phases(t[..i]))
  {
    hide RunResult, Phases, Latest, Sound, SoundEnd;
    var r := RunResult(env, NewBuilder(l), args);
    var t := r.b.w.link.trace;
    assert Keeps(env, NewBuilder(l).w, r.b.w, r.out.Halted?) by { RunFacts(env, args, l); }
    LedgerOf(env, NewBuilder(l).w, r.b.w, r.out.Halted?);
    forall i | 0 <= i < |t| && t[i].PhaseReq?
      ensures AcceptedAt(env, t, i) <==> Latest(Phases(t[..i])) < WireValue(t[i].phase)
      ensures t[i].phase == PULLING && AcceptedAt(env, t, i) ==> PULLING !in Phases(t[..i])
    {
      assert StrictAt(env, t, i);
      StrictPrefix(env, t[..i], t);
      AcceptedIsLatest(env, t[..i]);
      if PULLING in Phases(t[..i]) {
        LatestReached(Phases(t[..i]), PULLING);
      }
    }
    RunTolerates(env, args, l);
  }
}
