/** Whole runs of a build, for every way the outside world can behave. */
module Runs {
  import opened Framing
  import opened Outside
  import opened DockerLogWriter
  import opened BuildContext
  import opened Trace
  import opened Soundness
  import opened Retries
  import opened Stages
  import opened Finish
  import GrpcBuild

  // ---------------------------------------------------------------- from Building on

  predicate ReportsCompletion(e: Event) {
    e.PhaseReq? && e.phase == COMPLETE
  }

  /** The manager accepted the phase update at position `j` and echoed its number. */
  predicate AcceptedAt(env: Env, t: seq<Event>, j: nat) {
    j < |t| && t[j].PhaseReq? && env.setPhase(j) == PhaseReply(true, t[j].number)
  }

  /** After `from`: the image was built by a clean request, then every name was tagged and pushed
      in list order with a clean last attempt, and the last event stopped the heartbeat. */
  ghost predicate FinishedAfter(env: Env, args: BuildArgs, dir: string, cacheTag: string, from: nat, t: seq<Event>) {
    && t != [] && t[|t| - 1] == StopHeartbeat
    && exists j: nat :: BuiltAt(env, args, dir, cacheTag, from, t, j) && AllPushed(env, args, t[j].name, j + 1, t)
  }

  ghost predicate CompletesReady(env: Env, args: BuildArgs, dir: string, cacheTag: string, from: nat, t: seq<Event>) {
    forall i | from <= i < |t| && ReportsCompletion(t[i]) :: FinishedAfter(env, args, dir, cacheTag, from, t[..i])
  }

  ghost predicate RemovesLast(env: Env, from: nat, t: seq<Event>) {
    forall i | from <= i < |t| && t[i].RemoveReq? :: AcceptedCompletionBefore(env, from, t, i)
  }

  ghost predicate AcceptedCompletionBefore(env: Env, from: nat, t: seq<Event>, i: nat) {
    exists j :: from <= j < i < |t| && ReportsCompletion(t[j]) && AcceptedAt(env, t, j)
  }

  lemma {:induction false} PhaseListed(t: seq<Event>, i: nat)
    requires i < |t|
    ensures t[i].PhaseReq? ==> t[i].phase in Phases(t)
    ensures t[i].RemoveReq? ==> t[i].name in Removals(t)
    decreases |t|
  {
    if i < |t| - 1 {
      PhaseListed(t[..|t| - 1], i);
    }
  }

  /** Every phase reported between two traces is among the phases by which they differ. */
  lemma PhaseAdded(t: seq<Event>, u: seq<Event>, p: seq<WirePhase>, n: nat, i: nat)
    requires t <= u && Grew(t, u, p, n) && |t| <= i < |u|
    ensures u[i].PhaseReq? ==> u[i].phase in p
    ensures !u[i].RemoveReq?
  {
    hide Phases, Transfers, Removals;
    var s := u[|t|..];
    assert u == t + s;
    TallyAppend(t, s);
    assert Phases(s) == p && Removals(s) == [] by {
      assert (Phases(t) + Phases(s))[|Phases(t)|..] == Phases(s);
      assert (Phases(t) + p)[|Phases(t)|..] == p;
      assert (Removals(t) + Removals(s))[|Removals(t)|..] == Removals(s);
    }
    PhaseListed(s, i - |t|);
    assert s[i - |t|] == u[i];
  }

  /** A part of the run that reports no completion and removes nothing. */
  lemma NoCompletion(env: Env, args: BuildArgs, dir: string, cacheTag: string, t: seq<Event>, u: seq<Event>, p: seq<WirePhase>, n: nat)
    requires t <= u && Grew(t, u, p, n) && COMPLETE !in p
    ensures CompletesReady(env, args, dir, cacheTag, |t|, u) && RemovesLast(env, |t|, u)
  {
    hide Grew, FinishedAfter;
    forall i | |t| <= i < |u| ensures !ReportsCompletion(u[i]) && !u[i].RemoveReq? {
      PhaseAdded(t, u, p, n, i);
    }
  }

  /** The phases of a run from Building on, unless it stops before the last one. */
  const FINISH_PHASES := [BUILDING, PUSHING, COMPLETE]

  ghost predicate FinishOutcome(env: Env, b: Builder, args: BuildArgs, r: Staged<BuildMetadata>) {
    var t, u := b.w.link.trace, r.b.w.link.trace;
    && Keeps(env, b.w, r.b.w, r.out.Halted?)
    && r.b == b.(w := r.b.w, buildID := r.b.buildID)
    && (exists p :: p <= FINISH_PHASES && Phases(u) == Phases(t) + p)
    && Transfers(u) <= Transfers(t) + MAX_ATTEMPTS * |args.tagNames|
    && CompletesReady(env, args, b.buildpackDir, b.cacheTag, |t|, u)
    && RemovesLast(env, |t|, u)
    && Removals(u) == Removals(t) +
       (if r.out.Returned? then CleanupNames(args, b.metadata, b.cacheTag, r.out.value.imageID) else [])
    && (r.out.Returned? ==> Phases(u) == Phases(t) + FINISH_PHASES)
  }

  lemma CleanupTally(b: Builder, args: BuildArgs, imageID: string)
    ensures var s := CleanupEvents(b, args, imageID);
            Phases(s) == [] && Transfers(s) == 0 && Removals(s) == CleanupNames(args, b.metadata, b.cacheTag, imageID)
  {
    hide Phases, Transfers, Removals;
    var cache := if b.cacheTag != "" then [RemoveReq(CacheImage(args, b.cacheTag))] else [];
    var base, image := RemoveReq(BaseImage(b.metadata)), RemoveReq(imageID);
    TallyEmpty();
    TallyOne(RemoveReq(CacheImage(args, b.cacheTag)));
    TallyOne(base);
    TallyOne(image);
    TallyOne(PruneReq);
    TallyAppend([base], [image]);
    TallyAppend([base] + [image], [PruneReq]);
    assert [base] + [image] + [PruneReq] == [base, image, PruneReq];
    TallyAppend(cache, [base, image, PruneReq]);
  }

  lemma LastTally(b: Builder, args: BuildArgs, bmd: BuildMetadata, accepted: bool)
    ensures var s := LastEvents(b, args, bmd, accepted);
            && Phases(s) == [COMPLETE] && Transfers(s) == 0
            && Removals(s) == if accepted then CleanupNames(args, b.metadata, b.cacheTag, bmd.imageID) else []
  {
    hide ToInt32, Phases, Transfers, Removals, CleanupEvents, CleanupNames;
    var first := [StopHeartbeat, CompleteEvent(b.w.link)];
    assert first == [StopHeartbeat] + [CompleteEvent(b.w.link)];
    TallyOne(StopHeartbeat);
    TallyOne(CompleteEvent(b.w.link));
    TallyAppend([StopHeartbeat], [CompleteEvent(b.w.link)]);
    CleanupTally(b, args, bmd.imageID);
    TallyAppend(first, CleanupEvents(b, args, bmd.imageID));
    assert first + [] == first;
  }

  /** When the heartbeat has been stopped after the pushes, all is ready. */
  lemma ReadyAtStop(env: Env, args: BuildArgs, dir: string, cacheTag: string, from: nat, t: seq<Event>, u: seq<Event>, built: nat)
    requires BuiltAt(env, args, dir, cacheTag, from, t, built)
    requires AllPushed(env, args, env.buildID, built + 1, t) && u == t + [StopHeartbeat]
    ensures FinishedAfter(env, args, dir, cacheTag, from, u)
  {
    hide CleanCall, AllPushed, BuildEvent;
    AllPushedStable(env, args, env.buildID, built + 1, built + 1, t, u);
    CleanStable(env, t, u, built);
    assert BuiltAt(env, args, dir, cacheTag, from, u, built);
  }

  /** Completion, after a build and a push that both returned. */
  lemma CompleteStep(env: Env, b: Builder, args: BuildArgs, bmd: BuildMetadata, built: nat, from: nat)
    requires Clean(env, b.w) && from <= built
    requires BuiltAt(env, args, b.buildpackDir, b.cacheTag, from, b.w.link.trace, built)
    requires AllPushed(env, args, env.buildID, built + 1, b.w.link.trace)
    ensures var u, n := CompleteResult(env, b, args, bmd).b.w.link.trace, |b.w.link.trace|;
            forall i | n <= i < |u| && ReportsCompletion(u[i]) :: FinishedAfter(env, args, b.buildpackDir, b.cacheTag, from, u[..i])
    ensures RemovesLast(env, |b.w.link.trace|, CompleteResult(env, b, args, bmd).b.w.link.trace)
  {
    hide Sound, Keeps, CleanCall, AllPushed, BuiltAt, FinishedAfter, CompleteResult, ToInt32;
    CompleteFacts(env, b, args, bmd);
    var r := CompleteResult(env, b, args, bmd);
    var t, u := b.w.link.trace, r.b.w.link.trace;
    var n := |t|;
    assert u[n] == StopHeartbeat && u[n + 1] == CompleteEvent(b.w.link);
    forall i | n <= i < |u| && ReportsCompletion(u[i])
      ensures FinishedAfter(env, args, b.buildpackDir, b.cacheTag, from, u[..i])
    {
      assert i == n + 1;
      assert u[..i] == t + [StopHeartbeat];
      ReadyAtStop(env, args, b.buildpackDir, b.cacheTag, from, t, u[..i], built);
    }
    if r.out.Returned? {
      assert AcceptedAt(env, u, n + 1) by { NumberEchoed(env, b.w.link.phaseNum + 1, env.setPhase(n + 1)); }
      forall i | n <= i < |u| && u[i].RemoveReq? ensures AcceptedCompletionBefore(env, n, u, i) {
        assert i > n + 1;
      }
    }
  }

  /** A 32-bit number that equals the counter is the counter's own wire number. */
  lemma NumberEchoed(env: Env, n: int, reply: PhaseReply)
    requires reply.PhaseReply? && reply.success && reply.number as int == n
    ensures reply == PhaseReply(true, ToInt32(n))
  {
  }

  /** Ready at its completion, and quiet before: the whole suffix of a run. */
  lemma JoinSuffix(env: Env, args: BuildArgs, dir: string, cacheTag: string, t: seq<Event>, v: seq<Event>, u: seq<Event>, p: seq<WirePhase>, n: nat)
    requires t <= v <= u && Grew(t, v, p, n) && COMPLETE !in p
    requires forall i | |v| <= i < |u| && ReportsCompletion(u[i]) :: FinishedAfter(env, args, dir, cacheTag, |t|, u[..i])
    requires RemovesLast(env, |v|, u)
    ensures CompletesReady(env, args, dir, cacheTag, |t|, u) && RemovesLast(env, |t|, u)
  {
    hide Grew, FinishedAfter;
    forall i | |t| <= i < |v| ensures !ReportsCompletion(u[i]) && !u[i].RemoveReq? {
      PhaseAdded(t, v, p, n, i);
      assert u[i] == v[i];
    }
    forall i | |t| <= i < |u| && u[i].RemoveReq? ensures AcceptedCompletionBefore(env, |t|, u, i) {
      assert AcceptedCompletionBefore(env, |v|, u, i);
    }
  }

  lemma KeepsPrefix(env: Env, u: World, v: World, halted: bool)
    requires Keeps(env, u, v, halted)
    ensures u.link.trace <= v.link.trace
  {
    hide Sound, SoundEnd;
  }

  lemma FinishFacts(env: Env, b: Builder, args: BuildArgs)
    requires Clean(env, b.w)
    ensures FinishOutcome(env, b, args, FinishResult(env, b, args))
  {
    hide Sound, SoundEnd, BuildResult, PushResult, CompleteResult, Grew, Keeps, LastEvents, FinishedAfter, AllPushed, CleanupNames, CompletesReady, RemovesLast;
    var dir, tag, t := b.buildpackDir, b.cacheTag, b.w.link.trace;
    var most := MAX_ATTEMPTS * |args.tagNames|;
    var built := BuildResult(env, b, args);
    BuildFacts(env, b, args);
    var v := built.b.w.link.trace;
    KeepsPrefix(env, b.w, built.b.w, built.out.Halted?);
    if !built.out.Returned? {
      NoCompletion(env, args, dir, tag, t, v, [BUILDING], 0);
      GrewMeans(t, v, [BUILDING], 0);
      assert [BUILDING] <= FINISH_PHASES;
    } else {
      assert Clean(env, built.b.w) by { KeepsSound(env, b.w, built.b.w); }
      var pushed := PushResult(env, built.b, args);
      PushStageFacts(env, built.b, args);
      var x := pushed.b.w.link.trace;
      KeepsTrans(env, b.w, built.b.w, pushed.b.w, pushed.out.Halted?);
      KeepsPrefix(env, b.w, pushed.b.w, pushed.out.Halted?);
      KeepsPrefix(env, built.b.w, pushed.b.w, pushed.out.Halted?);
      GrewTrans(t, v, x, [BUILDING], [PUSHING], 0, most);
      assert [BUILDING] + [PUSHING] == [BUILDING, PUSHING];
      GrewMeans(t, x, [BUILDING, PUSHING], most);
      if !pushed.out.Returned? {
        NoCompletion(env, args, dir, tag, t, x, [BUILDING, PUSHING], most);
        assert [BUILDING, PUSHING] <= FINISH_PHASES;
      } else {
        assert Clean(env, pushed.b.w) by { KeepsSound(env, built.b.w, pushed.b.w); }
        FinishCompletes(env, b, args, pushed.b, pushed.out.value, v, most);
      }
    }
  }

  lemma GrewMeans(t: seq<Event>, u: seq<Event>, p: seq<WirePhase>, n: nat)
    requires Grew(t, u, p, n)
    ensures Phases(u) == Phases(t) + p && Transfers(u) <= Transfers(t) + n && Removals(u) == Removals(t)
  {
  }

  /** The last stage after a build stage that ended at `v` and a push stage that ended at `b1`. */
  lemma FinishCompletes(env: Env, b: Builder, args: BuildArgs, b1: Builder, bmd: BuildMetadata, v: seq<Event>, most: nat)
    requires Clean(env, b1.w) && Keeps(env, b.w, b1.w, false)
    requires b1 == b.(w := b1.w, buildID := b1.buildID)
    requires most == MAX_ATTEMPTS * |args.tagNames|
    requires b.w.link.trace <= v <= b1.w.link.trace
    requires Grew(b.w.link.trace, b1.w.link.trace, [BUILDING, PUSHING], most)
    requires exists j :: BuiltAt(env, args, b.buildpackDir, b.cacheTag, |b.w.link.trace|, v, j)
    requires AllPushed(env, args, env.buildID, |v|, b1.w.link.trace)
    ensures FinishOutcome(env, b, args, CompleteResult(env, b1, args, bmd))
  {
    hide Sound, SoundEnd, CompleteResult, Grew, Keeps, FinishedAfter, AllPushed, CleanupNames, CompletesReady, RemovesLast, CleanCall, BuildEvent, Phases, Transfers, Removals;
    var dir, tag, t, x := b.buildpackDir, b.cacheTag, b.w.link.trace, b1.w.link.trace;
    var built: nat :| BuiltAt(env, args, dir, tag, |t|, v, built);
    CleanStable(env, v, x, built);
    assert BuiltAt(env, args, dir, tag, |t|, x, built);
    AllPushedStable(env, args, env.buildID, built + 1, |v|, x, x);
    var r := CompleteResult(env, b1, args, bmd);
    CompleteFacts(env, b1, args, bmd);
    CompleteStep(env, b1, args, bmd, built, |t|);
    var u := r.b.w.link.trace;
    var last := LastEvents(b1, args, bmd, r.out.Returned?);
    LastTally(b1, args, bmd, r.out.Returned?);
    hide LastEvents;
    TallyAppend(x, last);
    GrewMeans(t, x, [BUILDING, PUSHING], most);
    KeepsTrans(env, b.w, b1.w, r.b.w, false);
    KeepsPrefix(env, b.w, b1.w, false);
    JoinSuffix(env, args, dir, tag, t, x, u, [BUILDING, PUSHING], most);
    assert (Phases(t) + [BUILDING, PUSHING]) + [COMPLETE] == Phases(t) + FINISH_PHASES;
  }

  // ---------------------------------------------------------------- the whole run

  /** A client that has registered its job and done nothing else. */
  predicate Registered(l: Link) {
    |l.trace| == 1 && l.trace[0].RegisterReq? && l.logNum == 0 && l.phaseNum == 0
  }

  const EARLY_PHASES := [UNPACKING, PULLING, PULLING, PULLING]
  const PLAIN_PHASES := [UNPACKING, PULLING, PULLING, BUILDING, PUSHING, COMPLETE]
  const PRIMED_PHASES := [UNPACKING, PULLING, PULLING, PULLING, BUILDING, PUSHING, COMPLETE]

  /** Before position `hi` the base image was pulled by a clean attempt, unless it needs no pull. */
  ghost predicate BasePulled(env: Env, args: BuildArgs, m: Metadata, hi: nat, t: seq<Event>) {
    m.baseImage == "scratch" || exists j: nat :: j < hi && BasePulledAt(env, args, m, t, j)
  }

  /** Credentials go along only to an image whose name begins with our own registry. */
  ghost predicate BasePulledAt(env: Env, args: BuildArgs, m: Metadata, t: seq<Event>, j: nat) {
    var own := args.baseImage.username != "" && args.registry <= m.baseImage;
    && j < |t| && CleanCall(env, t, j)
    && t[j] == PullReq(args.registry, m.baseImage, m.baseImageTag, if own then args.baseImage else Auth("", ""))
  }

  /** Everything that must have happened before completion is reported. */
  ghost predicate ReadyToComplete(env: Env, args: BuildArgs, b: Builder, t: seq<Event>) {
    exists from :: 0 <= from <= |t|
      && BasePulled(env, args, b.metadata, from, t)
      && FinishedAfter(env, args, b.buildpackDir, b.cacheTag, from, t)
  }

  lemma NewBuilderIsClean(env: Env, l: Link)
    requires Registered(l)
    ensures Clean(env, NewBuilder(l).w)
    ensures Phases(l.trace) == [] && Transfers(l.trace) == 0 && Removals(l.trace) == []
    ensures Control(l.trace) == l.trace && LogEntries(l.trace) == []
  {
    var e := l.trace[0];
    assert l.trace == [] + [e];
    Snoc(env, l.jobToken, [], e);
    TallyOne(e);
    EmptyTrace(env, l.jobToken);
    StillUndisturbed(env, [], e);
    hide LogEntries, Control, Sends, PhaseCount, ChunksOf, Numbered, PiecesOf, Entries, Phases, Transfers, Removals, Undisturbed;
  }

  lemma EmptyTrace(env: Env, token: string)
    ensures LogEntries([]) == [] && Control([]) == [] && Sends(env, []) == 0 && PhaseCount([]) == 0
    ensures ChunksOf(env, []) == [] && Numbered(env, token, [])
    ensures PiecesOf([], []) == Frames([], [], false) && Entries(env, []) == []
    ensures Undisturbed(env, [])
  {
    hide FramesOf, Decode;
    FramesUnfold([]);
    DecodeNothing();
  }

  lemma DecodeNothing()
    ensures Decode([]).EndOfInput?
  {
  }

  ghost predicate RunOutcome(env: Env, args: BuildArgs, l: Link, r: Staged<BuildMetadata>) {
    var t := r.b.w.link.trace;
    && Keeps(env, NewBuilder(l).w, r.b.w, r.out.Halted?)
    && (Phases(t) <= PLAIN_PHASES || Phases(t) <= PRIMED_PHASES)
    && Transfers(t) <= 2 * MAX_ATTEMPTS + MAX_ATTEMPTS * |args.tagNames|
    && (forall i | 0 <= i < |t| && ReportsCompletion(t[i]) :: ReadyToComplete(env, args, r.b, t[..i]))
    && (forall i | 0 <= i < |t| && t[i].RemoveReq? :: AcceptedCompletionBefore(env, 0, t, i))
    && Removals(t) == (if r.out.Returned? then CleanupNames(args, r.b.metadata, r.b.cacheTag, r.out.value.imageID) else [])
    && (r.out.Returned? ==> Phases(t) == PLAIN_PHASES || Phases(t) == PRIMED_PHASES)
  }

  /** A run that ends before Building: what it reported so far is `p`. */
  lemma EarlyEnd(env: Env, args: BuildArgs, l: Link, r: Staged<BuildMetadata>, p: seq<WirePhase>, n: nat)
    requires Registered(l) && Keeps(env, NewBuilder(l).w, r.b.w, r.out.Halted?) && !r.out.Returned?
    requires Grew(l.trace, r.b.w.link.trace, p, n)
    requires p <= EARLY_PHASES
    requires n <= 2 * MAX_ATTEMPTS
    ensures RunOutcome(env, args, l, r)
  {
    hide Keeps, Grew, ReadyToComplete, AcceptedCompletionBefore, Phases, Transfers, Removals;
    var t := r.b.w.link.trace;
    KeepsPrefix(env, NewBuilder(l).w, r.b.w, r.out.Halted?);
    NewBuilderIsClean(env, l);
    GrewMeans(l.trace, t, p, n);
    assert [] + p == p;
    EarlyPhases(p);
    QuietStart(l, t, p, n);
  }

  lemma EarlyPhases(p: seq<WirePhase>)
    requires p <= EARLY_PHASES
    ensures p <= PRIMED_PHASES && COMPLETE !in p
  {
    assert forall k | 0 <= k < |p| :: p[k] == EARLY_PHASES[k];
  }

  lemma QuietStart(l: Link, t: seq<Event>, p: seq<WirePhase>, n: nat)
    requires Registered(l) && l.trace <= t && Grew(l.trace, t, p, n) && COMPLETE !in p
    ensures forall i | 0 <= i < |t| :: !ReportsCompletion(t[i]) && !t[i].RemoveReq?
  {
    hide Grew;
    forall i | 0 <= i < |t| ensures !ReportsCompletion(t[i]) && !t[i].RemoveReq? {
      if i >= 1 {
        PhaseAdded(l.trace, t, p, n, i);
      } else {
        assert t[0] == l.trace[0];
      }
    }
  }

  lemma PulledBefore(env: Env, args: BuildArgs, m: Metadata, from: nat, t: seq<Event>, u: seq<Event>)
    requires BaseReady(env, args, m, from, t) && t <= u
    ensures forall i | |t| <= i <= |u| :: BasePulled(env, args, m, |t|, u[..i])
  {
    hide CleanCall;
    if m.baseImage != SCRATCH_IMAGE_NAME {
      var e := PullBaseEvent(args, m);
      var j: nat :| FirstCleanAt(env, from, t, e, j);
      forall i | |t| <= i <= |u| ensures BasePulled(env, args, m, |t|, u[..i]) {
        assert t <= u[..i];
        CleanStable(env, t, u[..i], j);
        assert u[..i][j] == e;
        assert BasePulledAt(env, args, m, u[..i], j);
      }
    }
  }

  /** A run that reaches Building: from there on `FinishOutcome` holds. */
  lemma LateEnd(env: Env, args: BuildArgs, l: Link, b: Builder, p: seq<WirePhase>, from: nat, pulled: seq<Event>)
    requires Registered(l) && Clean(env, b.w) && Keeps(env, NewBuilder(l).w, b.w, false)
    requires p <= EARLY_PHASES && 3 <= |p|
    requires Grew(l.trace, b.w.link.trace, p, 2 * MAX_ATTEMPTS)
    requires l.trace <= pulled <= b.w.link.trace
    requires BaseReady(env, args, b.metadata, from, pulled)
    ensures RunOutcome(env, args, l, FinishResult(env, b, args))
  {
    hide Keeps, Grew, FinishResult, FinishedAfter, BasePulled, BaseReady, Phases, Transfers, Removals, CleanupNames, Clean;
    var r := FinishResult(env, b, args);
    FinishFacts(env, b, args);
    KeepsTrans(env, NewBuilder(l).w, b.w, r.b.w, r.out.Halted?);
    KeepsPrefix(env, NewBuilder(l).w, b.w, false);
    KeepsPrefix(env, b.w, r.b.w, r.out.Halted?);
    var s, t := b.w.link.trace, r.b.w.link.trace;
    NewBuilderIsClean(env, l);
    GrewMeans(l.trace, s, p, 2 * MAX_ATTEMPTS);
    assert [] + p == p;
    var q :| q <= FINISH_PHASES && Phases(t) == Phases(s) + q;
    PhasesFit(p, q);
    PulledBefore(env, args, b.metadata, from, pulled, t);
    forall i | 0 <= i < |t| && (ReportsCompletion(t[i]) || t[i].RemoveReq?) ensures i >= |s| {
      if i < |s| {
        assert s[i] == t[i];
        if i >= 1 {
          PhaseAdded(l.trace, s, p, 2 * MAX_ATTEMPTS, i);
        }
      }
    }
    forall i | 0 <= i < |t| && ReportsCompletion(t[i]) ensures ReadyToComplete(env, args, r.b, t[..i]) {
      assert BasePulled(env, args, b.metadata, |pulled|, t[..i]);
      PulledWider(env, args, b.metadata, |pulled|, |s|, t[..i]);
      assert FinishedAfter(env, args, b.buildpackDir, b.cacheTag, |s|, t[..i]);
    }
    forall i | 0 <= i < |t| && t[i].RemoveReq? ensures AcceptedCompletionBefore(env, 0, t, i) {
      assert AcceptedCompletionBefore(env, |s|, t, i);
    }
    if r.out.Returned? {
      PhasesFit(p, FINISH_PHASES);
    }
  }

  lemma PulledWider(env: Env, args: BuildArgs, m: Metadata, lo: nat, hi: nat, t: seq<Event>)
    requires BasePulled(env, args, m, lo, t) && lo <= hi
    ensures BasePulled(env, args, m, hi, t)
  {
    hide CleanCall, PullBaseEvent;
  }

  lemma PhasesFit(p: seq<WirePhase>, q: seq<WirePhase>)
    requires p <= EARLY_PHASES && 3 <= |p|
    requires q <= FINISH_PHASES
    ensures p + q <= PLAIN_PHASES || p + q <= PRIMED_PHASES
    ensures q == FINISH_PHASES ==> p + q == PLAIN_PHASES || p + q == PRIMED_PHASES
  {
  }

  /** The package was downloaded and its Dockerfile parsed: the second and third request after
      registration, and what the rest of the run goes by. */
  ghost predicate Unpacked(env: Env, args: BuildArgs, b: Builder, t: seq<Event>) {
    && |t| >= 4
    && t[2] == DownloadReq && env.download(2) == Ok(b.buildpackDir)
    && t[3] == ParseReq(b.buildpackDir, args.dockerfilePath) && env.parse(3) == Ok(b.metadata)
  }

  /** The stages from Pulling on keep what was unpacked. */
  lemma FromPullKeeps(env: Env, b: Builder, args: BuildArgs)
    requires Clean(env, b.w) && b.cacheTag == ""
    ensures var r := FromPullResult(env, b, args);
            && b.w.link.trace <= r.b.w.link.trace
            && r.b.buildpackDir == b.buildpackDir && r.b.metadata == b.metadata
  {
    hide Sound, SoundEnd, Keeps, Grew, PullResult, CacheResult, FinishResult, BaseReady, StopsAtFirstClean, NoneClean, CompletesReady, RemovesLast;
    var pulled := PullResult(env, b, args);
    PullFacts(env, b, args);
    KeepsPrefix(env, b.w, pulled.b.w, pulled.out.Halted?);
    if pulled.out.Returned? {
      KeepsSound(env, b.w, pulled.b.w);
      var cached := CacheResult(env, pulled.b, args);
      CacheFacts(env, pulled.b, args);
      KeepsPrefix(env, pulled.b.w, cached.b.w, cached.out.Halted?);
      if cached.out.Returned? {
        KeepsSound(env, pulled.b.w, cached.b.w);
        FinishFacts(env, cached.b, args);
        var done := FinishResult(env, cached.b, args);
        KeepsPrefix(env, cached.b.w, done.b.w, done.out.Halted?);
      }
    }
  }

  /** A run that reports a second phase has unpacked its package. */
  lemma RunUnpacks(env: Env, args: BuildArgs, l: Link)
    requires Registered(l)
    ensures var r := RunResult(env, NewBuilder(l), args);
            var t := r.b.w.link.trace;
            Unpacked(env, args, r.b, t) || (!r.out.Returned? && forall i | 2 <= i < |t| :: !t[i].PhaseReq?)
  {
    hide Sound, SoundEnd, Keeps, Grew, UnpackResult, FromPullResult, ToInt32;
    var b := NewBuilder(l);
    NewBuilderIsClean(env, l);
    UnpackFacts(env, b, args);
    UnpackExactly(env, b, args);
    var unpacked := UnpackResult(env, b, args);
    if unpacked.out.Returned? {
      KeepsSound(env, b.w, unpacked.b.w);
      FromPullKeeps(env, unpacked.b, args);
      var u, t := unpacked.b.w.link.trace, FromPullResult(env, unpacked.b, args).b.w.link.trace;
      assert t[2] == u[2] && t[3] == u[3];
    }
  }

  /** Every run, from registration on. */
  lemma RunFacts(env: Env, args: BuildArgs, l: Link)
    requires Registered(l)
    ensures RunOutcome(env, args, l, RunResult(env, NewBuilder(l), args))
  {
    hide Sound, SoundEnd, Keeps, Grew, UnpackResult, PullResult, CacheResult, FinishResult, BaseReady, RunOutcome, StopsAtFirstClean, NoneClean;
    var b := NewBuilder(l);
    NewBuilderIsClean(env, l);
    var unpacked := UnpackResult(env, b, args);
    UnpackFacts(env, b, args);
    var r := RunResult(env, b, args);
    if !unpacked.out.Returned? {
      EarlyEnd(env, args, l, r, [UNPACKING], 0);
    } else {
      var u := unpacked.b;
      assert Clean(env, u.w) by { KeepsSound(env, b.w, u.w); }
      var pulled := PullResult(env, u, args);
      PullFacts(env, u, args);
      KeepsTrans(env, b.w, u.w, pulled.b.w, pulled.out.Halted?);
      GrewTrans(l.trace, u.w.link.trace, pulled.b.w.link.trace, [UNPACKING], [PULLING], 0, MAX_ATTEMPTS);
      assert [UNPACKING] + [PULLING] == [UNPACKING, PULLING];
      if !pulled.out.Returned? {
        EarlyEnd(env, args, l, r, [UNPACKING, PULLING], MAX_ATTEMPTS);
      } else {
        var v := pulled.b;
        assert Clean(env, v.w) by { KeepsSound(env, u.w, v.w); }
        var cached := CacheResult(env, v, args);
        CacheFacts(env, v, args);
        var c := cached.b;
        KeepsTrans(env, b.w, v.w, c.w, cached.out.Halted?);
        var q := if Grew(v.w.link.trace, c.w.link.trace, [PULLING], 0) then [PULLING] else [PULLING, PULLING];
        var n := if Grew(v.w.link.trace, c.w.link.trace, [PULLING], 0) then 0 else MAX_ATTEMPTS;
        GrewTrans(l.trace, v.w.link.trace, c.w.link.trace, [UNPACKING, PULLING], q, MAX_ATTEMPTS, n);
        GrewMore(l.trace, c.w.link.trace, [UNPACKING, PULLING] + q, MAX_ATTEMPTS + n, 2 * MAX_ATTEMPTS);
        assert [UNPACKING, PULLING] + [PULLING] == [UNPACKING, PULLING, PULLING];
        assert [UNPACKING, PULLING] + [PULLING, PULLING] == [UNPACKING, PULLING, PULLING, PULLING];
        if !cached.out.Returned? {
          EarlyEnd(env, args, l, r, [UNPACKING, PULLING] + q, MAX_ATTEMPTS + n);
        } else {
          assert Clean(env, c.w) by { KeepsSound(env, v.w, c.w); }
          KeepsPrefix(env, b.w, v.w, false);
          KeepsPrefix(env, v.w, c.w, false);
          LateEnd(env, args, l, c, [UNPACKING, PULLING] + q, |u.w.link.trace| + 1, v.w.link.trace);
        }
      }
    }
  }
}
