/** The cache tag over whole runs: what sets it, what it is used for, and how often the image it
    names is removed. */
module CacheTag {
  import opened JsonScanner
  import opened Framing
  import opened Outside
  import opened DockerLogWriter
  import opened BuildContext
  import opened Trace
  import opened Soundness
  import opened Retries
  import opened Stages
  import opened Finish
  import opened Runs
  import opened Theorems
  import GrpcBuild

  // ---------------------------------------------------------------- where the cache stage is

  /** The builder when the cache stage of a run starts. */
  function AtCache(env: Env, args: BuildArgs, l: Link): Builder {
    PullResult(env, UnpackResult(env, NewBuilder(l), args).b, args).b
  }

  predicate ReachesCache(env: Env, args: BuildArgs, l: Link) {
    var unpacked := UnpackResult(env, NewBuilder(l), args);
    unpacked.out.Returned? && PullResult(env, unpacked.b, args).out.Returned?
  }

  lemma CacheStarts(env: Env, args: BuildArgs, l: Link)
    requires Registered(l)
    ensures ReachesCache(env, args, l) ==>
              var b := AtCache(env, args, l);
              && Clean(env, b.w) && b.cacheTag == "" && b.w.link.jobToken == l.jobToken
              && Phases(b.w.link.trace) == [UNPACKING, PULLING] && b.w.link.phaseNum == 2
              && RunResult(env, NewBuilder(l), args) == FromCacheResult(env, b, args)
    ensures !ReachesCache(env, args, l) ==>
              var r := RunResult(env, NewBuilder(l), args);
              !r.out.Returned? && r.b.cacheTag == "" && BUILDING !in Phases(r.b.w.link.trace)
  {
    hide Sound, SoundEnd, Keeps, UnpackResult, PullResult, FromCacheResult, BaseReady, Phases, Transfers, Removals;
    var b := NewBuilder(l);
    NewBuilderIsClean(env, l);
    UnpackFacts(env, b, args);
    var unpacked := UnpackResult(env, b, args);
    assert [] + [UNPACKING] == [UNPACKING];
    if unpacked.out.Returned? {
      KeepsSound(env, b.w, unpacked.b.w);
      PullFacts(env, unpacked.b, args);
      var pulled := PullResult(env, unpacked.b, args);
      assert [UNPACKING] + [PULLING] == [UNPACKING, PULLING];
      if pulled.out.Returned? {
        KeepsSound(env, unpacked.b.w, pulled.b.w);
        PhaseNumIs(env, unpacked.b.w, pulled.b.w);
        LedgerOf(env, b.w, unpacked.b.w, false);
        LedgerOf(env, unpacked.b.w, pulled.b.w, false);
      }
    }
  }

  lemma PhaseNumIs(env: Env, w: World, v: World)
    requires Keeps(env, w, v, false)
    ensures v.link.phaseNum == |Phases(v.link.trace)|
  {
    hide Synced, Phases, PhaseCount, Numbered, Sends;
    PhaseCountIs(v.link.trace);
  }

  /** Position `j` of a trace lies between the third phase update, which is the first one of the
      cache stage, and the update to BUILDING. */
  predicate InCacheStage(t: seq<Event>, j: nat)
    requires j <= |t|
  {
    |Phases(t[..j])| >= 3 && BUILDING !in Phases(t[..j])
  }

  lemma PhasesUpTo(t: seq<Event>, u: seq<Event>, j: nat)
    requires t <= u && j <= |u|
    ensures j <= |t| ==> u[..j] == t[..j] && Phases(u[..j]) <= Phases(t)
    ensures j >= |t| ==> Phases(t) <= Phases(u[..j])
  {
    hide Phases;
    if j <= |t| {
      assert u[..j] == t[..j] && t[..|t|] == t;
      assert t == t[..j] + t[j..];
      TallyAppend(t[..j], t[j..]);
    } else {
      assert u[..j] == t + u[|t|..j];
      TallyAppend(t, u[|t|..j]);
    }
  }

  lemma {:induction false} PrefixMembers(p: seq<WirePhase>, q: seq<WirePhase>, x: WirePhase)
    requires p <= q
    ensures x in p ==> x in q
  {
    if x in p {
      var i :| 0 <= i < |p| && p[i] == x;
      assert q[i] == x;
    }
  }

  // ---------------------------------------------------------------- what follows the cache stage

  /** The stages from Building on begin with the update to BUILDING, and that is the only one. If
      it is accepted the build request comes next, with the parameters of the builder. */
  lemma BuildBegins(env: Env, b: Builder, args: BuildArgs)
    requires Clean(env, b.w)
    ensures var n, u := |b.w.link.trace|, FinishResult(env, b, args).b.w.link.trace;
            && b.w.link.trace <= u && n < |u| && u[n].PhaseReq? && u[n].phase == BUILDING
            && (n + 1 < |u| ==> u[n + 1] == BuildEvent(env, args, b.buildpackDir, b.cacheTag))
            && (forall i | n < i < |u| && u[i].PhaseReq? :: u[i].phase != BUILDING)
            && FinishResult(env, b, args).b.cacheTag == b.cacheTag
  {
    hide Sound, SoundEnd, Phases, Transfers, Removals, Keeps, FinishResult, CompletesReady, RemovesLast, CleanupNames, BuildEvent;
    FinishFacts(env, b, args);
    var r := FinishResult(env, b, args);
    var t, u, n := b.w.link.trace, r.b.w.link.trace, |b.w.link.trace|;
    KeepsPrefix(env, b.w, r.b.w, r.out.Halted?);
    BuildFirst(env, b, args);
    var p :| p <= FINISH_PHASES && Phases(u) == Phases(t) + p;
    OneBuilding(t, u, p);
  }

  lemma OnlyFirst(before: seq<WirePhase>, after: seq<WirePhase>, p: seq<WirePhase>)
    requires before + [BUILDING] + after == before + p && p <= FINISH_PHASES
    ensures BUILDING !in after
  {
    var all, n := before + p, |before| + 1;
    forall i | 0 <= i < |after| ensures after[i] != BUILDING {
      assert after[i] == all[n + i] == p[1 + i] == FINISH_PHASES[1 + i];
    }
  }

  lemma OneBuilding(t: seq<Event>, u: seq<Event>, p: seq<WirePhase>)
    requires t <= u && |t| < |u| && u[|t|].PhaseReq? && u[|t|].phase == BUILDING
    requires p <= FINISH_PHASES && Phases(u) == Phases(t) + p
    ensures forall i | |t| < i < |u| && u[i].PhaseReq? :: u[i].phase != BUILDING
  {
    hide Phases;
    var n, rest := |t|, u[|t| + 1..];
    assert u == t + [u[n]] + rest;
    PhasesAfter(t, u[n]);
    TallyAppend(t + [u[n]], rest);
    OnlyFirst(Phases(t), Phases(rest), p);
    forall i | n < i < |u| && u[i].PhaseReq? ensures u[i].phase != BUILDING {
      PhaseListed(rest, i - n - 1);
      assert rest[i - n - 1] == u[i];
    }
  }

  lemma BuildFirst(env: Env, b: Builder, args: BuildArgs)
    requires Clean(env, b.w)
    ensures var n, u := |b.w.link.trace|, FinishResult(env, b, args).b.w.link.trace;
            && n < |u| && u[n].PhaseReq? && u[n].phase == BUILDING
            && (n + 1 < |u| ==> u[n + 1] == BuildEvent(env, args, b.buildpackDir, b.cacheTag))
  {
    hide Sound, SetPhase, FinishResult, BuildResult, BuildEvent, ToInt32;
    var s := SetPhase(env, b.w, Building, NO_PULL);
    PhaseAdds(env, b.w);
    FinishExtends(env, b, args);
    if s.out.Returned? {
      var e := BuildEvent(env, args, b.buildpackDir, b.cacheTag);
      BuildSecond(env, b, args);
      assert (s.w.link.trace + [e])[|b.w.link.trace| + 1] == e;
    } else {
      RejectedBuild(env, b, args);
    }
  }

  lemma PhaseAdds(env: Env, w: World)
    ensures SetPhase(env, w, Building, NO_PULL).w.link.trace ==
            w.link.trace + [PhaseReq(w.link.jobToken, ToInt32(w.link.phaseNum + 1), BUILDING, NO_PULL)]
  {
    hide ToInt32;
  }

  lemma BuildSecond(env: Env, b: Builder, args: BuildArgs)
    requires Clean(env, b.w) && SetPhase(env, b.w, Building, NO_PULL).out.Returned?
    ensures SetPhase(env, b.w, Building, NO_PULL).w.link.trace + [BuildEvent(env, args, b.buildpackDir, b.cacheTag)]
            <= BuildResult(env, b, args).b.w.link.trace
  {
    hide Sound, StageKeeps, Grew, ExecuteBuildResult, BuildEvent, ToInt32;
    PhaseStep(env, b.w, Building, NO_PULL);
    hide SetPhase;
    ExecuteBegins(env, SetPhase(env, b.w, Building, NO_PULL).w, args, b.buildpackDir, b.cacheTag);
  }

  lemma ExecuteBegins(env: Env, w: World, args: BuildArgs, dir: string, cacheTag: string)
    requires Clean(env, w)
    ensures w.link.trace + [BuildEvent(env, args, dir, cacheTag)]
            <= ExecuteBuildResult(env, w, args, dir, cacheTag).w.link.trace
  {
    var e := BuildEvent(env, args, dir, cacheTag);
    assert Streams(e);
    hide BuildEvent, RequestResult;
    RequestBegins(env, w, e);
  }

  lemma RequestBegins(env: Env, w: World, e: Event)
    requires Sound(env, w) && Streams(e)
    ensures w.link.trace + [e] <= RequestResult(env, w, e).w.link.trace
  {
    hide Sound, Keeps, RequestResult, Control, LastError, PiecesOf, OnlyLogs;
    RequestKeeps(env, w, e);
  }

  lemma RejectedBuild(env: Env, b: Builder, args: BuildArgs)
    requires !SetPhase(env, b.w, Building, NO_PULL).out.Returned?
    ensures FinishResult(env, b, args).b.w == SetPhase(env, b.w, Building, NO_PULL).w
  {
    hide SetPhase;
  }

  lemma FinishExtends(env: Env, b: Builder, args: BuildArgs)
    requires Clean(env, b.w)
    ensures BuildResult(env, b, args).b.w.link.trace <= FinishResult(env, b, args).b.w.link.trace
  {
    hide Sound, SoundEnd, Keeps, BuildResult, PushResult, CompleteResult, Grew, AllPushed, LastEvents, BuiltAt;
    var built := BuildResult(env, b, args);
    BuildFacts(env, b, args);
    if built.out.Returned? {
      KeepsSound(env, b.w, built.b.w);
      var pushed := PushResult(env, built.b, args);
      PushStageFacts(env, built.b, args);
      KeepsPrefix(env, built.b.w, pushed.b.w, pushed.out.Halted?);
      if pushed.out.Returned? {
        KeepsSound(env, built.b.w, pushed.b.w);
        CompleteFacts(env, pushed.b, args, pushed.out.value);
      }
    }
  }

  lemma CacheHaltsUnset(env: Env, b: Builder, args: BuildArgs)
    ensures CacheResult(env, b, args).out.Halted? ==> CacheResult(env, b, args).b.cacheTag == b.cacheTag
  {
    hide SetPhase, FindCachedTagResult, PrimeCacheResult;
  }

  // ---------------------------------------------------------------- the tag of a whole run

  /** The requests of the cache stage, seen in the trace of the whole run. */
  lemma CacheStageIs(env: Env, b: Builder, args: BuildArgs, t: seq<Event>, j: nat)
    requires Clean(env, b.w) && b.cacheTag == "" && Phases(b.w.link.trace) == [UNPACKING, PULLING]
    requires CacheResult(env, b, args).b.w.link.trace <= t && j < |t| && Streams(t[j])
    requires var n := |CacheResult(env, b, args).b.w.link.trace|;
             n < |t| ==> t[n].PhaseReq? && t[n].phase == BUILDING
    ensures InCacheStage(t, j) <==> |b.w.link.trace| <= j < |CacheResult(env, b, args).b.w.link.trace|
  {
    hide Sound, SoundEnd, Keeps, CacheResult, Phases, Transfers, Removals, StopsAtFirstClean, NoneClean;
    var v, c := b.w.link.trace, CacheResult(env, b, args).b.w.link.trace;
    CacheFacts(env, b, args);
    CacheFirst(env, b, args);
    assert v <= c by { PrefixOf(env, b.w, CacheResult(env, b, args).b.w, CacheResult(env, b, args).out.Halted?); }
    if j < |v| {
      PhasesUpTo(v, t, j);
    } else if j < |c| {
      PhasesUpTo(v + [c[|v|]], t, j);
      PhasesAfter(v, c[|v|]);
      PhasesUpTo(c, t, j);
      PrefixMembers(Phases(t[..j]), Phases(c), BUILDING);
      var p := [UNPACKING, PULLING];
      assert p + [PULLING] == [UNPACKING, PULLING, PULLING] && p + [PULLING, PULLING] == [UNPACKING, PULLING, PULLING, PULLING];
    } else {
      PhasesUpTo(c + [t[|c|]], t, j);
      PhasesAfter(c, t[|c|]);
      PrefixMembers(Phases(c) + [BUILDING], Phases(t[..j]), BUILDING);
    }
  }

  lemma PhasesAfter(t: seq<Event>, e: Event)
    ensures Phases(t + [e]) == Phases(t) + if e.PhaseReq? then [e.phase] else []
  {
    hide Phases;
    TallyAppend(t, [e]);
    TallyOne(e);
  }

  /** The cache stage begins with a phase update. */
  lemma CacheFirst(env: Env, b: Builder, args: BuildArgs)
    requires Clean(env, b.w)
    ensures var n, c := |b.w.link.trace|, CacheResult(env, b, args).b.w.link.trace;
            n < |c| && b.w.link.trace <= c && c[n].PhaseReq? && c[n].phase == PULLING
  {
    hide Sound, SoundEnd, StageKeeps, Grew, ToInt32, FindCachedTagResult, RetryFrom, OnlyQuiet, StopsAtFirstClean, NoneClean;
    var s := SetPhase(env, b.w, CheckingCache, NO_PULL);
    PhaseStep(env, b.w, CheckingCache, NO_PULL);
    var f := FindCachedTagResult(env, s.w, b.metadata);
    FindTagFacts(env, s.w, b.metadata);
    assert s.w.link.trace <= f.w.link.trace;
    if f.out.Returned? && args.pullToken != "" && f.out.value != "" {
      var u := SetPhase(env, f.w, PrimingCache, NO_PULL);
      PhaseStep(env, f.w, PrimingCache, NO_PULL);
      var e := PullCacheEvent(args, f.out.value);
      RetryStep(env, u.w, e);
      PrefixOf(env, u.w, RetryResult(env, u.w, e).w, RetryResult(env, u.w, e).out.Halted?);
    }
    hide SetPhase;
    assert s.w.link.trace <= CacheResult(env, b, args).b.w.link.trace;
  }

  /** How the cache tag of a run fits its trace: no tag if the run did not get past the cache stage.
      If it did, a tag exactly if a pull of that stage was clean, and then that pull was of this
      tag. The request after the update to BUILDING, if there is one, is a build that uses just the
      image of the tag, and no image if there is no tag. */
  ghost predicate TagOutcome(env: Env, args: BuildArgs, t: seq<Event>, tag: string) {
    && (BUILDING !in Phases(t) ==> tag == "")
    && (BUILDING in Phases(t) ==>
          && (tag != "" <==> exists j :: 0 <= j < |t| && InCacheStage(t, j) && CleanCall(env, t, j))
          && (forall j | 0 <= j < |t| && InCacheStage(t, j) && CleanCall(env, t, j) ::
                t[j] == PullReq(args.registry, args.registry + "/" + args.repository, tag, Auth("$token", args.pullToken))))
    && (forall i | 0 <= i < |t| - 1 && t[i].PhaseReq? && t[i].phase == BUILDING ::
          t[i + 1].BuildReq? && t[i + 1].cacheFrom == CachedImages(args, tag))
  }

  /** The images a build may use as its cache. */
  function CachedImages(args: BuildArgs, tag: string): seq<string> {
    if tag == "" then [] else [args.registry + "/" + args.repository + ":" + tag]
  }

  lemma BuildUses(env: Env, args: BuildArgs, dir: string, tag: string)
    ensures var e := BuildEvent(env, args, dir, tag); e.BuildReq? && e.cacheFrom == CachedImages(args, tag)
  {
  }

  lemma NoBuilding(t: seq<Event>)
    ensures BUILDING !in Phases(t) ==> forall i | 0 <= i < |t| && t[i].PhaseReq? :: t[i].phase != BUILDING
  {
    hide Phases;
    if BUILDING !in Phases(t) {
      forall i | 0 <= i < |t| && t[i].PhaseReq? ensures t[i].phase != BUILDING {
        PhaseListed(t, i);
      }
    }
  }

  lemma TagWithoutBuild(env: Env, args: BuildArgs, t: seq<Event>)
    requires BUILDING !in Phases(t)
    ensures TagOutcome(env, args, t, "")
  {
    hide Phases, CleanCall;
    NoBuilding(t);
  }

  lemma CachePhases(env: Env, b: Builder, args: BuildArgs)
    requires Clean(env, b.w) && b.cacheTag == "" && Phases(b.w.link.trace) == [UNPACKING, PULLING]
    ensures BUILDING !in Phases(CacheResult(env, b, args).b.w.link.trace)
  {
    hide Sound, CacheResult, Phases, Transfers, Removals, StageKeeps, StopsAtFirstClean, NoneClean;
    CacheFacts(env, b, args);
  }

  lemma TagAfterCache(env: Env, b: Builder, args: BuildArgs, c: Builder, t: seq<Event>)
    requires Clean(env, b.w) && b.cacheTag == "" && Phases(b.w.link.trace) == [UNPACKING, PULLING]
    requires CacheResult(env, b, args).out.Returned? && CacheResult(env, b, args).b == c
    requires c.w.link.trace <= t && |c.w.link.trace| < |t|
    requires var n := |c.w.link.trace|; t[n].PhaseReq? && t[n].phase == BUILDING
    ensures var tag := c.cacheTag;
            && (tag != "" <==> exists j :: 0 <= j < |t| && InCacheStage(t, j) && CleanCall(env, t, j))
            && (forall j | 0 <= j < |t| && InCacheStage(t, j) && CleanCall(env, t, j) :: t[j] == PullCacheEvent(args, tag))
  {
    hide Sound, CacheResult, Phases, CleanCall, InCacheStage;
    CacheTagMeansPulled(env, b, args);
    var from, u := |b.w.link.trace|, c.w.link.trace;
    forall j: nat | j < |t| && CleanCall(env, t, j)
      ensures InCacheStage(t, j) <==> from <= j < |u|
      ensures from <= j < |u| ==> CleanCall(env, u, j) && t[j] == u[j]
    {
      CleanStreams(env, t, j);
      CacheStageIs(env, b, args, t, j);
      if j < |u| {
        CleanStable(env, u, t, j);
      }
    }
    forall j: nat | from <= j < |u| && CleanCall(env, u, j) ensures CleanCall(env, t, j) {
      CleanStable(env, u, t, j);
    }
  }

  lemma CacheTagFrom(env: Env, b: Builder, args: BuildArgs)
    requires Clean(env, b.w) && b.cacheTag == "" && Phases(b.w.link.trace) == [UNPACKING, PULLING]
    ensures var r := FromCacheResult(env, b, args); TagOutcome(env, args, r.b.w.link.trace, r.b.cacheTag)
  {
    hide Sound, CacheResult, FinishResult, Phases, CleanCall, InCacheStage, TagOutcome, Keeps, Grew, StopsAtFirstClean, NoneClean;
    var cached := CacheResult(env, b, args);
    CacheFacts(env, b, args);
    CachePhases(env, b, args);
    CacheHaltsUnset(env, b, args);
    var c, r := cached.b, FromCacheResult(env, b, args);
    if !cached.out.Returned? {
      TagWithoutBuild(env, args, c.w.link.trace);
    } else {
      KeepsSound(env, b.w, c.w);
      BuildBegins(env, c, args);
      var t, n := r.b.w.link.trace, |c.w.link.trace|;
      PhaseListed(t, n);
      TagAfterCache(env, b, args, c, t);
      NoBuilding(c.w.link.trace);
      forall i | 0 <= i < n ensures t[i].PhaseReq? ==> t[i].phase != BUILDING {
        assert t[i] == c.w.link.trace[i];
      }
      BuildUses(env, args, c.buildpackDir, c.cacheTag);
      PullIs(args, c.cacheTag);
      hide PullCacheEvent, BuildEvent, CachedImages;
      TagHolds(env, args, c, t, n);
    }
  }

  lemma TagHolds(env: Env, args: BuildArgs, c: Builder, t: seq<Event>, n: nat)
    requires n < |t| && BUILDING in Phases(t)
    requires n + 1 < |t| ==> t[n + 1].BuildReq? && t[n + 1].cacheFrom == CachedImages(args, c.cacheTag)
    requires forall i | 0 <= i < |t| - 1 && t[i].PhaseReq? && t[i].phase == BUILDING :: i == n
    requires c.cacheTag != "" <==> exists j :: 0 <= j < |t| && InCacheStage(t, j) && CleanCall(env, t, j)
    requires forall j | 0 <= j < |t| && InCacheStage(t, j) && CleanCall(env, t, j) ::
               t[j] == PullReq(args.registry, args.registry + "/" + args.repository, c.cacheTag, Auth("$token", args.pullToken))
    ensures TagOutcome(env, args, t, c.cacheTag)
  {
    hide Phases, CleanCall, InCacheStage, CachedImages;
  }

  lemma PullIs(args: BuildArgs, tag: string)
    ensures PullCacheEvent(args, tag) ==
            PullReq(args.registry, args.registry + "/" + args.repository, tag, Auth("$token", args.pullToken))
  {
  }

  /** Every run ends with a cache tag that fits its trace. */
  lemma CacheTagOfRun(env: Env, args: BuildArgs, l: Link)
    requires Registered(l)
    ensures var r := RunResult(env, NewBuilder(l), args); TagOutcome(env, args, r.b.w.link.trace, r.b.cacheTag)
  {
    hide RunResult, AtCache, ReachesCache, Sound, Keeps, Phases, FromCacheResult, CleanCall, InCacheStage, PullCacheEvent;
    CacheStarts(env, args, l);
    if ReachesCache(env, args, l) {
      CacheTagFrom(env, AtCache(env, args, l), args);
    } else {
      TagWithoutBuild(env, args, RunResult(env, NewBuilder(l), args).b.w.link.trace);
    }
  }

  // ---------------------------------------------------------------- a removal requested twice

  /** A world in which all goes well: the base image is one of the build's own images, and the
      most similar tag is the tag of that image. */
  const SMOOTH: Env := Env(
    (n: nat) => Err(""),
    (n: nat) => PhaseReply(true, SmoothNumber(n)),
    (n: nat) => Sent(Acked(true)),
    (n: nat) => Ok("t"),
    (n: nat) => ContainerReply([], None),
    (n: nat) => Ok(Image("i", [])),
    (n: nat) => Ok("d"),
    (n: nat) => Ok(Metadata("r/x", "t")),
    (text: Bytes) => None,
    (m: Response) => None,
    "b")

  /** The position of each phase update in this run, and its number. */
  function SmoothNumber(n: nat): int32 {
    if n <= 1 then 1 else if n <= 4 then 2 else if n <= 6 then 3 else if n <= 9 then 4
    else if n <= 11 then 5 else if n <= 14 then 6 else 7
  }

  const SMOOTH_ARGS := BuildArgs("f", "x", "r", "p", "p", [], Auth("", ""))

  /** What the run of `SMOOTH` is at after some requests: so many of them, and so many phases. */
  predicate At(w: World, requests: nat, phases: nat) {
    |w.link.trace| == requests && w.link.phaseNum == phases && w.writer == WriterState([], None)
  }

  lemma SmoothPhase(w: World, phase: Phase, pull: PullMetadata, requests: nat, phases: nat)
    requires At(w, requests, phases) && SmoothNumber(requests) as int == phases + 1
    ensures var s := SetPhase(SMOOTH, w, phase, pull);
            s.out == Returned(()) && At(s.w, requests + 1, phases + 1)
  {
    hide ToInt32, GrpcBuild.PhaseEnum;
    assert SMOOTH.setPhase(requests) == PhaseReply(true, SmoothNumber(requests));
  }

  lemma SmoothRequest(w: World, e: Event, requests: nat, phases: nat)
    requires At(w, requests, phases)
    ensures RequestResult(SMOOTH, w, e) == Did(Emit(w, e), Returned(()))
    ensures RetryResult(SMOOTH, w, e) == Did(Emit(w, e), Returned(()))
    ensures At(Emit(w, e), requests + 1, phases)
  {
    assert SMOOTH.container(requests) == ContainerReply([], None);
    assert StreamResult(SMOOTH, Emit(w, e), []) == Progress(Emit(w, e), false);
    assert ForgetError(w) == w;
  }

  lemma SmoothStart(b: Builder)
    requires At(b.w, 1, 0)
    ensures var u := UnpackResult(SMOOTH, b, SMOOTH_ARGS);
            u.out.Returned? && At(u.b.w, 4, 1) && u.b.metadata == Metadata("r/x", "t") && u.b.cacheTag == b.cacheTag
  {
    SmoothPhase(b.w, Unpacking, NO_PULL, 1, 0);
    hide SetPhase;
  }

  lemma SmoothPull(b: Builder)
    requires At(b.w, 4, 1) && b.metadata == Metadata("r/x", "t")
    ensures var u := PullResult(SMOOTH, b, SMOOTH_ARGS);
            u.out.Returned? && At(u.b.w, 6, 2) && u.b == b.(w := u.b.w)
  {
    var pull := PullMetadataOf(SMOOTH_ARGS, b.metadata);
    SmoothPhase(b.w, Pulling, pull, 4, 1);
    hide SetPhase, RetryFrom, PullBaseEvent;
    SmoothRequest(SetPhase(SMOOTH, b.w, Pulling, pull).w, PullBaseEvent(SMOOTH_ARGS, b.metadata), 5, 2);
    assert "r/x" != SCRATCH_IMAGE_NAME;
  }

  lemma SmoothCache(b: Builder)
    requires At(b.w, 6, 2) && b.metadata == Metadata("r/x", "t")
    ensures var u := CacheResult(SMOOTH, b, SMOOTH_ARGS);
            u.out.Returned? && At(u.b.w, 11, 4) && u.b == b.(w := u.b.w, cacheTag := "t")
  {
    SmoothPhase(b.w, CheckingCache, NO_PULL, 6, 2);
    var w := SetPhase(SMOOTH, b.w, CheckingCache, NO_PULL).w;
    SmoothFind(w, b.metadata);
    var f := FindCachedTagResult(SMOOTH, w, b.metadata);
    SmoothPhase(f.w, PrimingCache, NO_PULL, 9, 3);
    var v := SetPhase(SMOOTH, f.w, PrimingCache, NO_PULL).w;
    hide SetPhase, RetryFrom, FindCachedTagResult;
    SmoothRequest(v, PullCacheEvent(SMOOTH_ARGS, "t"), 10, 4);
  }

  lemma SmoothFind(w: World, m: Metadata)
    requires At(w, 7, 3) && m == Metadata("r/x", "t")
    ensures var f := FindCachedTagResult(SMOOTH, w, m);
            f.out == Returned("t") && At(f.w, 9, 3)
  {
    assert "r/x" != SCRATCH_IMAGE_NAME;
    assert SMOOTH.inspect(7) == Ok(Image("i", [])) && SMOOTH.cachedTag(8) == Ok("t");
  }

  lemma SmoothFinish(b: Builder)
    requires At(b.w, 11, 4)
    ensures var u := FinishResult(SMOOTH, b, SMOOTH_ARGS);
            u.out == Returned(BuildMetadata("i", [])) && u.b.metadata == b.metadata && u.b.cacheTag == b.cacheTag
  {
    SmoothBuild(b);
    var built := BuildResult(SMOOTH, b, SMOOTH_ARGS);
    SmoothPush(built.b);
    var pushed := PushResult(SMOOTH, built.b, SMOOTH_ARGS);
    var w := Emit(pushed.b.w, StopHeartbeat);
    assert At(w, 17, 6);
    SmoothPhase(w, Phase.Complete, NO_PULL, 17, 6);
    hide SetPhase, BuildResult, PushResult;
  }

  lemma SmoothBuild(b: Builder)
    requires At(b.w, 11, 4)
    ensures var u := BuildResult(SMOOTH, b, SMOOTH_ARGS);
            u.out.Returned? && At(u.b.w, 14, 5) && u.b == b.(w := u.b.w, buildID := u.b.buildID)
  {
    SmoothPhase(b.w, Building, NO_PULL, 11, 4);
    var w := SetPhase(SMOOTH, b.w, Building, NO_PULL).w;
    hide SetPhase, RequestResult, BuildEvent;
    SmoothRequest(w, BuildEvent(SMOOTH, SMOOTH_ARGS, b.buildpackDir, b.cacheTag), 12, 5);
  }

  lemma SmoothPush(b: Builder)
    requires At(b.w, 14, 5)
    ensures var u := PushResult(SMOOTH, b, SMOOTH_ARGS);
            u.out == Returned(BuildMetadata("i", [])) && At(u.b.w, 16, 6) && u.b == b.(w := u.b.w)
  {
    SmoothPhase(b.w, Pushing, NO_PULL, 14, 5);
    var w := SetPhase(SMOOTH, b.w, Pushing, NO_PULL).w;
    assert SMOOTH.inspect(15) == Ok(Image("i", []));
    assert PushFrom(SMOOTH, w, SMOOTH_ARGS, b.buildID, 0) == Did(w, Returned(()));
    hide SetPhase;
  }

  lemma SmoothRun(l: Link)
    requires Registered(l)
    ensures var r := RunResult(SMOOTH, NewBuilder(l), SMOOTH_ARGS);
            r.out == Returned(BuildMetadata("i", [])) && r.b.cacheTag == "t" && r.b.metadata == Metadata("r/x", "t")
  {
    var b := NewBuilder(l);
    SmoothStart(b);
    var u := UnpackResult(SMOOTH, b, SMOOTH_ARGS).b;
    SmoothPull(u);
    var v := PullResult(SMOOTH, u, SMOOTH_ARGS).b;
    SmoothCache(v);
    SmoothFinish(CacheResult(SMOOTH, v, SMOOTH_ARGS).b);
    hide UnpackResult, PullResult, CacheResult, FinishResult;
  }

  /** A build from one of its own images, with that image's tag as the most similar one: the image
      is pulled as the base image and again for the cache, and its removal is requested twice. */
  lemma RemovalRequestedTwice(l: Link)
    requires Registered(l)
    ensures var r := RunResult(SMOOTH, NewBuilder(l), SMOOTH_ARGS);
            && r.out.Returned? && r.b.cacheTag == "t"
            && multiset(Removals(r.b.w.link.trace))["r/x:t"] == 2
  {
    hide RunResult, Removals;
    SmoothRun(l);
    SmoothNames();
    CachedImageRemovals(SMOOTH, SMOOTH_ARGS, l);
  }

  lemma SmoothNames()
    ensures SMOOTH_ARGS.registry + "/" + SMOOTH_ARGS.repository + ":" + "t" == "r/x:t"
    ensures "r/x" + ":" + "t" == "r/x:t" && "i" != "r/x:t"
  {
    assert "r" + "/" == "r/" && "r/" + "x" == "r/x" && "r/x" + ":" == "r/x:" && "r/x:" + "t" == "r/x:t";
    assert |"i"| != |"r/x:t"|;
  }
}
