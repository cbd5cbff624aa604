/** The stages from Building on: what must have happened before the build is reported complete. */
module Finish {
  import opened Outside
  import opened DockerLogWriter
  import opened BuildContext
  import opened Trace
  import opened Soundness
  import opened Retries
  import opened Stages
  import GrpcBuild

  // ---------------------------------------------------------------- building

  /** From `from` on, the image was built by a clean request at `j`. */
  ghost predicate BuiltAt(env: Env, args: BuildArgs, dir: string, cacheTag: string, from: nat, t: seq<Event>, j: nat) {
    && from <= j < |t| && CleanCall(env, t, j)
    && t[j] == BuildReq(env.buildID, if cacheTag == "" then [] else [args.registry + "/" + args.repository + ":" + cacheTag],
                        args.dockerfilePath, dir)
  }

  ghost predicate BuildOutcome(env: Env, b: Builder, args: BuildArgs, r: Staged<()>) {
    && Keeps(env, b.w, r.b.w, r.out.Halted?)
    && Grew(b.w.link.trace, r.b.w.link.trace, [BUILDING], 0)
    && r.b == b.(w := r.b.w, buildID := r.b.buildID)
    && (r.out.Returned? ==>
          && r.b.w.writer.err == None && r.b.buildID == env.buildID
          && exists j :: BuiltAt(env, args, b.buildpackDir, b.cacheTag, |b.w.link.trace|, r.b.w.link.trace, j))
  }

  lemma ExecuteFacts(env: Env, w: World, args: BuildArgs, dir: string, cacheTag: string)
    requires Clean(env, w)
    ensures var r := ExecuteBuildResult(env, w, args, dir, cacheTag);
            && Keeps(env, w, r.w, r.out.Halted?)
            && Grew(w.link.trace, r.w.link.trace, [], 0)
            && |w.link.trace| < |r.w.link.trace|
            && (r.out.Returned? ==>
                  && r.w.writer.err == None && r.out.value == env.buildID
                  && BuiltAt(env, args, dir, cacheTag, |w.link.trace|, r.w.link.trace, |w.link.trace|))
  {
    hide Sound, SoundEnd, Control, CleanCall, RequestResult, LastError, Phases, Transfers, Removals;
    var e := BuildEvent(env, args, dir, cacheTag);
    var r := RequestResult(env, w, e);
    RequestKeeps(env, w, e);
    GrewByOne(w.link.trace, r.w.link.trace, e);
    assert (w.link.trace + [e])[|w.link.trace|] == r.w.link.trace[|w.link.trace|];
    if !r.out.Halted? {
      SyncedOf(env, w);
      CleanMeans(env, w, e, r.w.link.trace);
      RequestReply(env, w, e);
      ForgetKeeps(env, r.w);
      KeepsTrans(env, w, r.w, ForgetError(r.w), false);
    }
  }

  lemma BuildFacts(env: Env, b: Builder, args: BuildArgs)
    requires Clean(env, b.w)
    ensures BuildOutcome(env, b, args, BuildResult(env, b, args))
  {
    hide Sound, SoundEnd, Grew, CleanCall, GrpcBuild.SetPhaseResult, ToInt32, ExecuteBuildResult, BuildEvent;
    var t0 := b.w.link.trace;
    var s := SetPhase(env, b.w, Building, NO_PULL);
    PhaseStep(env, b.w, Building, NO_PULL);
    if s.out.Returned? {
      var x := ExecuteBuildResult(env, s.w, args, b.buildpackDir, b.cacheTag);
      ExecuteFacts(env, s.w, args, b.buildpackDir, b.cacheTag);
      KeepsTrans(env, b.w, s.w, x.w, x.out.Halted?);
      GrewTrans(t0, s.w.link.trace, x.w.link.trace, [BUILDING], [], 0, 0);
      assert [BUILDING] + [] == [BUILDING];
      if !x.out.Halted? {
        var e := RemoveDirReq(b.buildpackDir);
        var v := Emit(x.w, e);
        EmitKeeps(env, x.w, e);
        KeepsTrans(env, b.w, x.w, v, false);
        GrewByOne(x.w.link.trace, v.link.trace, e);
        GrewTrans(t0, x.w.link.trace, v.link.trace, [BUILDING], [], 0, 0);
        if x.out.Returned? {
          CleanStable(env, x.w.link.trace, v.link.trace, |s.w.link.trace|);
          assert BuiltAt(env, args, b.buildpackDir, b.cacheTag, |t0|, v.link.trace, |s.w.link.trace|);
        }
      }
    }
  }

  // ---------------------------------------------------------------- pushing

  ghost predicate PushStageOutcome(env: Env, b: Builder, args: BuildArgs, r: Staged<BuildMetadata>) {
    && Keeps(env, b.w, r.b.w, r.out.Halted?)
    && Grew(b.w.link.trace, r.b.w.link.trace, [PUSHING], MAX_ATTEMPTS * |args.tagNames|)
    && r.b == b.(w := r.b.w)
    && (r.out.Returned? ==>
          && r.b.w.writer.err == None
          && AllPushed(env, args, b.buildID, |b.w.link.trace|, r.b.w.link.trace))
  }

  /** From `from` on, every name was tagged and pushed in list order with a clean last attempt. */
  ghost predicate AllPushed(env: Env, args: BuildArgs, imageID: string, from: nat, t: seq<Event>) {
    exists hi :: 0 <= hi <= |t| && Pushed(env, args, imageID, t, |args.tagNames|, from, hi)
  }

  lemma {:induction false} PushedFrom(env: Env, args: BuildArgs, imageID: string, t: seq<Event>, k: nat, lo: nat, hi: nat, from: nat)
    requires k <= |args.tagNames| && hi <= |t| && from <= lo
    requires Pushed(env, args, imageID, t, k, lo, hi)
    ensures Pushed(env, args, imageID, t, k, from, hi)
    decreases k
  {
    hide CleanCall;
    if k > 0 {
      var p, q :| lo <= p < q < hi && PushedAt(env, args, imageID, t, k, lo, hi, p, q);
      PushedFrom(env, args, imageID, t, k - 1, lo, p, from);
      assert PushedAt(env, args, imageID, t, k, from, hi, p, q);
    }
  }

  lemma AllPushedStable(env: Env, args: BuildArgs, imageID: string, from: nat, lo: nat, t: seq<Event>, u: seq<Event>)
    requires AllPushed(env, args, imageID, lo, t) && t <= u && from <= lo
    ensures AllPushed(env, args, imageID, from, u)
  {
    hide Pushed;
    var hi :| 0 <= hi <= |t| && Pushed(env, args, imageID, t, |args.tagNames|, lo, hi);
    PushedFrom(env, args, imageID, t, |args.tagNames|, lo, hi, from);
    PushedStable(env, args, imageID, t, u, |args.tagNames|, from, hi);
  }

  lemma GrewByPush(t: seq<Event>, u: seq<Event>, args: BuildArgs, imageID: string, tries: seq<nat>)
    requires |tries| <= |args.tagNames| && forall k | 0 <= k < |tries| :: tries[k] <= MAX_ATTEMPTS
    requires Control(u) == Control(t) + PushScript(args, imageID, 0, tries)
    ensures Grew(t, u, [], MAX_ATTEMPTS * |args.tagNames|)
  {
    hide Phases, Transfers, Removals, PushScript, Control;
    TallyPush(args, imageID, 0, tries);
    TallyGrows(t, u, PushScript(args, imageID, 0, tries));
  }

  lemma PushLoopFacts(env: Env, w: World, args: BuildArgs, imageID: string)
    requires Clean(env, w)
    ensures var r := PushFrom(env, w, args, imageID, 0);
            && Keeps(env, w, r.w, r.out.Halted?)
            && (!r.out.Halted? ==> r.w.writer.err == None)
            && Grew(w.link.trace, r.w.link.trace, [], MAX_ATTEMPTS * |args.tagNames|)
            && (r.out.Returned? ==> AllPushed(env, args, imageID, |w.link.trace|, r.w.link.trace))
  {
    hide Sound, SoundEnd, Control, PushFrom, PushScript, StoppedAt, Grew, PushedAt;
    assert Pushed(env, args, imageID, w.link.trace, 0, |w.link.trace|, |w.link.trace|);
    hide Pushed;
    var tries := PushFacts(env, w, args, imageID, 0, |w.link.trace|);
    var r := PushFrom(env, w, args, imageID, 0);
    forall k | 0 <= k < |tries| ensures tries[k] <= MAX_ATTEMPTS {
      assert k == |tries| - 1 || k < |tries| - 1;
    }
    GrewByPush(w.link.trace, r.w.link.trace, args, imageID, tries);
    if r.out.Returned? {
      assert Pushed(env, args, imageID, r.w.link.trace, |args.tagNames|, |w.link.trace|, |r.w.link.trace|);
    }
  }

  /** After the push loop the image is inspected, and what the inspection says is the answer: the
      check for a leftover stream error after it never fires. */
  lemma InspectionAfterPush(env: Env, w: World, args: BuildArgs, imageID: string)
    requires Clean(env, w)
    ensures var p, r := PushFrom(env, w, args, imageID, 0), PushBuiltResult(env, w, args, imageID);
            && (p.out.Returned? ==>
                  && r.w == Emit(p.w, InspectReq(imageID))
                  && r.out == match env.inspect(|p.w.link.trace|)
                              case Ok(image) => Returned(image)
                              case Err(m) => Failed(TagError(m)))
            && (!p.out.Returned? ==> r.w == p.w && r.out == Stop(p.out))
  {
    hide PushFrom, AllPushed, Sound, Keeps, Grew;
    PushLoopFacts(env, w, args, imageID);
    var p := PushFrom(env, w, args, imageID, 0);
    if p.out.Returned? {
      assert ForgetError(Emit(p.w, InspectReq(imageID))) == Emit(p.w, InspectReq(imageID));
    }
  }

  lemma PushStageFacts(env: Env, b: Builder, args: BuildArgs)
    requires Clean(env, b.w)
    ensures PushStageOutcome(env, b, args, PushResult(env, b, args))
  {
    hide Sound, SoundEnd, Grew, GrpcBuild.SetPhaseResult, ToInt32, PushFrom, AllPushed;
    var t0, most := b.w.link.trace, MAX_ATTEMPTS * |args.tagNames|;
    var s := SetPhase(env, b.w, Pushing, NO_PULL);
    PhaseStep(env, b.w, Pushing, NO_PULL);
    GrewMore(t0, s.w.link.trace, [PUSHING], 0, most);
    if s.out.Returned? {
      var x := PushFrom(env, s.w, args, b.buildID, 0);
      PushLoopFacts(env, s.w, args, b.buildID);
      KeepsTrans(env, b.w, s.w, x.w, x.out.Halted?);
      GrewTrans(t0, s.w.link.trace, x.w.link.trace, [PUSHING], [], 0, most);
      assert [PUSHING] + [] == [PUSHING];
      if x.out.Returned? {
        var e := InspectReq(b.buildID);
        var v := Emit(x.w, e);
        EmitKeeps(env, x.w, e);
        KeepsTrans(env, b.w, x.w, v, false);
        assert ForgetError(v) == v;
        GrewByOne(x.w.link.trace, v.link.trace, e);
        GrewTrans(t0, x.w.link.trace, v.link.trace, [PUSHING], [], most, 0);
        AllPushedStable(env, args, b.buildID, |t0|, |s.w.link.trace|, x.w.link.trace, v.link.trace);
      }
    }
  }

  lemma GrewMore(t: seq<Event>, u: seq<Event>, p: seq<WirePhase>, m: nat, n: nat)
    requires Grew(t, u, p, m) && m <= n
    ensures Grew(t, u, p, n)
  {
  }

  // ---------------------------------------------------------------- completing

  /** The removals of a finished build, in the order in which they are requested. */
  function CleanupNames(args: BuildArgs, m: Metadata, cacheTag: string, imageID: string): seq<string> {
    (if cacheTag != "" then [args.registry + "/" + args.repository + ":" + cacheTag] else [])
    + [if m.baseImageTag != "" then m.baseImage + ":" + m.baseImageTag else m.baseImage, imageID]
  }

  function CompleteEvent(l: Link): Event {
    PhaseReq(l.jobToken, ToInt32(l.phaseNum + 1), COMPLETE, NO_PULL)
  }

  function CleanupEvents(b: Builder, args: BuildArgs, imageID: string): seq<Event> {
    (if b.cacheTag != "" then [RemoveReq(CacheImage(args, b.cacheTag))] else [])
    + [RemoveReq(BaseImage(b.metadata)), RemoveReq(imageID), PruneReq]
  }

  /** What the last steps add: the heartbeat is stopped, completion is reported, and only if
      that is accepted images are removed. */
  function LastEvents(b: Builder, args: BuildArgs, bmd: BuildMetadata, accepted: bool): seq<Event> {
    [StopHeartbeat, CompleteEvent(b.w.link)] + if accepted then CleanupEvents(b, args, bmd.imageID) else []
  }

  /** A list of events that only concern images. */
  function EmitAll(w: World, es: seq<Event>): World
    decreases |es|
  {
    if es == [] then w else EmitAll(Emit(w, es[0]), es[1..])
  }

  lemma {:induction false} EmitAllKeeps(env: Env, w: World, es: seq<Event>)
    requires Sound(env, w) && forall i | 0 <= i < |es| :: es[i].RemoveReq? || es[i].PruneReq?
    ensures Keeps(env, w, EmitAll(w, es), false)
    ensures EmitAll(w, es) == w.(link := w.link.(trace := w.link.trace + es))
    decreases |es|
  {
    hide Sound, SoundEnd;
    if es == [] {
      KeepsSelf(env, w);
      assert w.link.trace + es == w.link.trace;
    } else {
      EmitKeeps(env, w, es[0]);
      assert Sound(env, Emit(w, es[0])) by { KeepsSound(env, w, Emit(w, es[0])); }
      EmitAllKeeps(env, Emit(w, es[0]), es[1..]);
      KeepsTrans(env, w, Emit(w, es[0]), EmitAll(w, es), false);
      assert w.link.trace + es == (w.link.trace + [es[0]]) + es[1..];
    }
  }

  lemma CleanupIsEmitAll(env: Env, b: Builder, args: BuildArgs, imageID: string)
    ensures CleanupResult(env, b, args, imageID) ==
            Staged(b.(w := b.w.(link := b.w.link.(trace := b.w.link.trace + CleanupEvents(b, args, imageID)))), Returned(()))
  {
    hide CacheImage, BaseImage;
  }

  lemma CompleteFacts(env: Env, b: Builder, args: BuildArgs, bmd: BuildMetadata)
    requires Clean(env, b.w)
    ensures var r := CompleteResult(env, b, args, bmd);
            && Keeps(env, b.w, r.b.w, false) && !r.out.Halted?
            && r.b == b.(w := r.b.w)
            && r.b.w.link.trace == b.w.link.trace + LastEvents(b, args, bmd, r.out.Returned?)
            && (r.out.Returned? ==> r.out.value == bmd)
            && (r.out.Returned? <==>
                  env.setPhase(|b.w.link.trace| + 1).PhaseReply? && env.setPhase(|b.w.link.trace| + 1).success
                  && env.setPhase(|b.w.link.trace| + 1).number as int == b.w.link.phaseNum + 1)
  {
    hide Sound, SoundEnd, ToInt32, CleanupResult, CleanupEvents, Control;
    var w1 := Emit(b.w, StopHeartbeat);
    EmitKeeps(env, b.w, StopHeartbeat);
    assert Sound(env, w1) by { KeepsSound(env, b.w, w1); }
    SetPhaseKeeps(env, w1, Phase.Complete, NO_PULL);
    var s := SetPhase(env, w1, Phase.Complete, NO_PULL);
    KeepsTrans(env, b.w, w1, s.w, false);
    var first := [StopHeartbeat, CompleteEvent(b.w.link)];
    assert s.w.link.trace == b.w.link.trace + first;
    if s.out.Returned? {
      var es := CleanupEvents(b, args, bmd.imageID);
      var c := b.(w := s.w);
      assert CleanupEvents(c, args, bmd.imageID) == es by { SameCleanup(b, c, args, bmd.imageID); }
      CleanupIsEmitAll(env, c, args, bmd.imageID);
      assert Sound(env, s.w) by { KeepsSound(env, w1, s.w); }
      OnlyRemovals(b, args, bmd.imageID);
      EmitAllKeeps(env, s.w, es);
      KeepsTrans(env, b.w, s.w, EmitAll(s.w, es), false);
      assert (b.w.link.trace + first) + es == b.w.link.trace + (first + es);
    } else {
      assert first + [] == first;
    }
  }

  lemma SameCleanup(b: Builder, c: Builder, args: BuildArgs, imageID: string)
    requires c == b.(w := c.w)
    ensures CleanupEvents(c, args, imageID) == CleanupEvents(b, args, imageID)
  {
  }

  lemma OnlyRemovals(b: Builder, args: BuildArgs, imageID: string)
    ensures forall e | e in CleanupEvents(b, args, imageID) :: e.RemoveReq? || e.PruneReq?
  {
  }
}
