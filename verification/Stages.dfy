/** What each stage adds to the trace, and what it leaves behind. */
module Stages {
  import opened Outside
  import opened DockerLogWriter
  import opened BuildContext
  import opened Trace
  import opened Soundness
  import opened Retries
  import GrpcBuild

  // ---------------------------------------------------------------- tallies of a trace

  /** The wire phases reported, in order. */
  function Phases(t: seq<Event>): seq<WirePhase> {
    if t == [] then []
    else
      var n := |t| - 1;
      if t[n].PhaseReq? then Phases(t[..n]) + [t[n].phase] else Phases(t[..n])
  }

  /** The number of pull and push requests. */
  function Transfers(t: seq<Event>): nat {
    if t == [] then 0
    else
      var n := |t| - 1;
      Transfers(t[..n]) + if t[n].PullReq? || t[n].PushReq? then 1 else 0
  }

  /** The images whose removal was requested, in order. */
  function Removals(t: seq<Event>): seq<string> {
    if t == [] then []
    else
      var n := |t| - 1;
      if t[n].RemoveReq? then Removals(t[..n]) + [t[n].name] else Removals(t[..n])
  }

  lemma {:induction false} TallyAppend(a: seq<Event>, b: seq<Event>)
    ensures Phases(a + b) == Phases(a) + Phases(b)
    ensures Transfers(a + b) == Transfers(a) + Transfers(b)
    ensures Removals(a + b) == Removals(a) + Removals(b)
    decreases |b|
  {
    if b == [] {
      assert a + b == a;
    } else {
      assert (a + b)[..|a + b| - 1] == a + b[..|b| - 1];
      TallyAppend(a, b[..|b| - 1]);
    }
  }

  lemma {:induction false} TallyControl(t: seq<Event>)
    ensures Phases(Control(t)) == Phases(t)
    ensures Transfers(Control(t)) == Transfers(t)
    ensures Removals(Control(t)) == Removals(t)
    decreases |t|
  {
    hide Phases, Transfers, Removals;
    if t != [] {
      var n := |t| - 1;
      TallyControl(t[..n]);
      assert t == t[..n] + [t[n]];
      TallyAppend(t[..n], [t[n]]);
      if t[n].LogReq? {
        TallyOne(t[n]);
        assert Control(t) == Control(t[..n]);
      } else {
        TallyAppend(Control(t[..n]), [t[n]]);
      }
    }
  }

  lemma TallyOne(e: Event)
    ensures Phases([e]) == if e.PhaseReq? then [e.phase] else []
    ensures Transfers([e]) == if e.PullReq? || e.PushReq? then 1 else 0
    ensures Removals([e]) == if e.RemoveReq? then [e.name] else []
  {
    assert [e][..0] == [];
  }

  lemma {:induction false} TallyRepeat(e: Event, n: nat)
    requires Streams(e)
    ensures Phases(Repeat(e, n)) == [] && Transfers(Repeat(e, n)) <= n && Removals(Repeat(e, n)) == []
  {
    if n > 0 {
      TallyRepeat(e, n - 1);
      TallyOne(e);
      TallyAppend([e], Repeat(e, n - 1));
    }
  }

  lemma {:induction false} TallyPush(args: BuildArgs, imageID: string, i: nat, tries: seq<nat>)
    requires i + |tries| <= |args.tagNames|
    requires forall k | 0 <= k < |tries| :: tries[k] <= MAX_ATTEMPTS
    ensures var s := PushScript(args, imageID, i, tries);
            Phases(s) == [] && Transfers(s) <= MAX_ATTEMPTS * |tries| && Removals(s) == []
    decreases |tries|
  {
    hide Phases, Transfers, Removals, Repeat;
    if tries == [] {
      TallyEmpty();
    } else {
      var tag := args.tagNames[i];
      var a, b := [TagEvent(args, imageID, tag)], Repeat(PushEvent(args, tag), tries[0]);
      TallyPush(args, imageID, i + 1, tries[1..]);
      TallyOne(TagEvent(args, imageID, tag));
      TallyRepeat(PushEvent(args, tag), tries[0]);
      TallyAppend(a, b);
      TallyAppend(a + b, PushScript(args, imageID, i + 1, tries[1..]));
    }
  }

  lemma TallyEmpty()
    ensures Phases([]) == [] && Transfers([]) == 0 && Removals([]) == []
  {
  }

  /** Two traces whose control parts differ by a suffix differ by the tallies of that suffix. */
  lemma TallyGrows(t: seq<Event>, u: seq<Event>, added: seq<Event>)
    requires Control(u) == Control(t) + added
    ensures Phases(u) == Phases(t) + Phases(added)
    ensures Transfers(u) == Transfers(t) + Transfers(added)
    ensures Removals(u) == Removals(t) + Removals(added)
  {
    TallyControl(t);
    TallyControl(u);
    TallyAppend(Control(t), added);
  }

  /** `Grew(t, u, ...)` sums up what was added between two traces. */
  ghost predicate Grew(t: seq<Event>, u: seq<Event>, phases: seq<WirePhase>, transfers: nat) {
    Phases(u) == Phases(t) + phases && Transfers(u) <= Transfers(t) + transfers && Removals(u) == Removals(t)
  }

  lemma GrewTrans(t: seq<Event>, u: seq<Event>, v: seq<Event>, p: seq<WirePhase>, q: seq<WirePhase>, m: nat, n: nat)
    requires Grew(t, u, p, m) && Grew(u, v, q, n)
    ensures Grew(t, v, p + q, m + n)
  {
    hide Phases, Transfers, Removals;
    assert (Phases(t) + p) + q == Phases(t) + (p + q);
  }

  lemma GrewByOne(t: seq<Event>, u: seq<Event>, e: Event)
    requires Control(u) == Control(t) + [e] && !e.RemoveReq?
    ensures Grew(t, u, if e.PhaseReq? then [e.phase] else [], if e.PullReq? || e.PushReq? then 1 else 0)
  {
    hide Phases, Transfers, Removals;
    TallyOne(e);
    TallyGrows(t, u, [e]);
  }

  lemma GrewByRepeat(t: seq<Event>, u: seq<Event>, e: Event, n: nat)
    requires Control(u) == Control(t) + Repeat(e, n) && Streams(e)
    ensures Grew(t, u, [], n)
  {
    hide Phases, Transfers, Removals, Repeat;
    TallyRepeat(e, n);
    TallyGrows(t, u, Repeat(e, n));
  }

  // ---------------------------------------------------------------- stages

  /** Sound before and after, and no stream error left behind. */
  ghost predicate Clean(env: Env, w: World) {
    Sound(env, w) && w.writer.err == None
  }

  ghost predicate StageKeeps(env: Env, w: World, v: World, halted: bool) {
    Keeps(env, w, v, halted) && (!halted ==> v.writer.err == None)
  }

  lemma StageTrans(env: Env, u: World, v: World, w: World, halted: bool)
    requires StageKeeps(env, u, v, false) && StageKeeps(env, v, w, halted)
    ensures StageKeeps(env, u, w, halted)
  {
    hide Keeps;
    KeepsTrans(env, u, v, w, halted);
  }

  lemma PhaseStep(env: Env, w: World, phase: Phase, pull: PullMetadata)
    requires Clean(env, w)
    ensures var s := SetPhase(env, w, phase, pull);
            && StageKeeps(env, w, s.w, false) && Clean(env, s.w) && !s.out.Halted?
            && Grew(w.link.trace, s.w.link.trace, [GrpcBuild.PhaseEnum(phase)], 0)
            && s.w.link.trace == w.link.trace + [PhaseReq(w.link.jobToken, ToInt32(w.link.phaseNum + 1), GrpcBuild.PhaseEnum(phase), pull)]
  {
    hide Sound, SoundEnd, ToInt32, GrpcBuild.PhaseEnum, Grew, Control;
    SetPhaseKeeps(env, w, phase, pull);
    var s := SetPhase(env, w, phase, pull);
    GrewByOne(w.link.trace, s.w.link.trace, PhaseReq(w.link.jobToken, ToInt32(w.link.phaseNum + 1), GrpcBuild.PhaseEnum(phase), pull));
  }

  lemma EmitStep(env: Env, w: World, e: Event)
    requires Clean(env, w)
    requires !e.PhaseReq? && !e.LogReq? && !e.CachedTagReq? && !Streams(e) && !e.RemoveReq?
    ensures StageKeeps(env, w, Emit(w, e), false) && Clean(env, Emit(w, e))
    ensures Grew(w.link.trace, Emit(w, e).link.trace, [], 0)
  {
    hide Sound, SoundEnd, Grew, Control;
    EmitKeeps(env, w, e);
    GrewByOne(w.link.trace, Emit(w, e).link.trace, e);
  }

  lemma RetryStep(env: Env, w: World, e: Event)
    requires Clean(env, w) && Streams(e)
    ensures var r := RetryResult(env, w, e);
            && StageKeeps(env, w, r.w, r.out.Halted?)
            && Grew(w.link.trace, r.w.link.trace, [], MAX_ATTEMPTS)
            && (r.out.Returned? ==> StopsAtFirstClean(env, |w.link.trace|, r.w.link.trace, e))
            && (r.out.Failed? ==> NoneClean(env, |w.link.trace|, r.w.link.trace))
  {
    hide Sound, SoundEnd, Control, StopsAtFirstClean, NoneClean, RetryFrom;
    var tries := RetryFacts(env, w, e, 0);
    GrewByRepeat(w.link.trace, RetryResult(env, w, e).w.link.trace, e, tries);
  }

  lemma UnpackFacts(env: Env, b: Builder, args: BuildArgs)
    requires Clean(env, b.w)
    ensures var r := UnpackResult(env, b, args);
            && StageKeeps(env, b.w, r.b.w, false) && !r.out.Halted?
            && Grew(b.w.link.trace, r.b.w.link.trace, [UNPACKING], 0)
            && r.b.cacheTag == b.cacheTag
  {
    hide Sound, SoundEnd, Grew, StageKeeps, GrpcBuild.SetPhaseResult, ToInt32;
    var s := SetPhase(env, b.w, Unpacking, NO_PULL);
    PhaseStep(env, b.w, Unpacking, NO_PULL);
    if s.out.Returned? {
      var w1 := Emit(s.w, DownloadReq);
      EmitStep(env, s.w, DownloadReq);
      StageTrans(env, b.w, s.w, w1, false);
      GrewTrans(b.w.link.trace, s.w.link.trace, w1.link.trace, [UNPACKING], [], 0, 0);
      var d := env.download(|s.w.link.trace|);
      assert [UNPACKING] + [] == [UNPACKING];
      if d.Ok? {
        var e := ParseReq(d.value, args.dockerfilePath);
        EmitStep(env, w1, e);
        StageTrans(env, b.w, w1, Emit(w1, e), false);
        GrewTrans(b.w.link.trace, w1.link.trace, Emit(w1, e).link.trace, [UNPACKING], [], 0, 0);
      }
    }
  }

  /** The manager accepted the phase update at position `n` and echoed `number`. */
  predicate Accepts(env: Env, n: nat, number: int) {
    var reply := env.setPhase(n);
    reply.PhaseReply? && reply.success && reply.number as int == number
  }

  /** What a refused phase update answers. */
  function Refusal(env: Env, n: nat): Error {
    if env.setPhase(n).PhaseError? then Plain(env.setPhase(n).message) else RejectedPhase
  }

  /** The first stage, exactly: it reports its phase, downloads the package and parses the
      Dockerfile in the directory of that download, each only if the step before succeeded. */
  lemma UnpackExactly(env: Env, b: Builder, args: BuildArgs)
    ensures var r, t, n := UnpackResult(env, b, args), b.w.link.trace, |b.w.link.trace|;
            var report := PhaseReq(b.w.link.jobToken, ToInt32(b.w.link.phaseNum + 1), UNPACKING, PullMetadata("", "", "", ""));
            var u, download, parse := r.b.w.link.trace, env.download(n + 1), env.parse(n + 2);
            if !Accepts(env, n, b.w.link.phaseNum + 1) then
              u == t + [report] && r.out == Failed(Refusal(env, n))
            else if download.Err? then
              u == t + [report, DownloadReq] && r.out == Failed(Plain(download.message))
            else
              && u == t + [report, DownloadReq, ParseReq(download.value, args.dockerfilePath)]
              && r.b.buildpackDir == download.value
              && if parse.Err? then r.out == Failed(Plain(parse.message))
                 else r.out == Returned(()) && r.b.metadata == parse.value
  {
    hide ToInt32;
  }

  /** The base image needs no pull, or from `from` on it was pulled by a clean attempt. */
  ghost predicate BaseReady(env: Env, args: BuildArgs, m: Metadata, from: nat, t: seq<Event>) {
    m.baseImage == SCRATCH_IMAGE_NAME || StopsAtFirstClean(env, from, t, PullBaseEvent(args, m))
  }

  lemma PullFacts(env: Env, b: Builder, args: BuildArgs)
    requires Clean(env, b.w)
    ensures var r := PullResult(env, b, args);
            && StageKeeps(env, b.w, r.b.w, r.out.Halted?)
            && Grew(b.w.link.trace, r.b.w.link.trace, [PULLING], MAX_ATTEMPTS)
            && r.b == b.(w := r.b.w)
            && (r.out.Returned? ==> BaseReady(env, args, b.metadata, |b.w.link.trace| + 1, r.b.w.link.trace))
  {
    hide Sound, SoundEnd, StageKeeps, GrpcBuild.SetPhaseResult, ToInt32, StopsAtFirstClean, NoneClean, Phases, Transfers, Removals, RetryFrom, PullBaseEvent;
    var pull := PullMetadataOf(args, b.metadata);
    var s := SetPhase(env, b.w, Pulling, pull);
    PhaseStep(env, b.w, Pulling, pull);
    if s.out.Returned? && b.metadata.baseImage != SCRATCH_IMAGE_NAME {
      var e := PullBaseEvent(args, b.metadata);
      assert Streams(e) by { PullBaseStreams(args, b.metadata); }
      RetryStep(env, s.w, e);
      var r := RetryResult(env, s.w, e);
      StageTrans(env, b.w, s.w, r.w, r.out.Halted?);
      GrewTrans(b.w.link.trace, s.w.link.trace, r.w.link.trace, [PULLING], [], 0, MAX_ATTEMPTS);
      assert [PULLING] + [] == [PULLING];
    }
  }

  lemma PullBaseStreams(args: BuildArgs, m: Metadata)
    ensures Streams(PullBaseEvent(args, m))
  {
  }

  /** Where the cache stage asks for the similar tag. The check for a leftover stream error after
      the inspection never fires: if the image was found, the manager is asked, and its answer is
      the answer. */
  lemma FindTagFacts(env: Env, w: World, m: Metadata)
    requires Clean(env, w)
    ensures var r := FindCachedTagResult(env, w, m);
            && StageKeeps(env, w, r.w, false) && Clean(env, r.w) && !r.out.Halted?
            && Grew(w.link.trace, r.w.link.trace, [], 0)
            && w.link.trace <= r.w.link.trace
            && OnlyQuiet(w.link.trace, r.w.link.trace)
    ensures m.baseImage != SCRATCH_IMAGE_NAME && env.inspect(|w.link.trace|).Ok? ==>
              var asked := Emit(w, InspectEvent(m));
              var id := env.inspect(|w.link.trace|).value.id;
              && FindCachedTagResult(env, w, m) ==
                 Lift(asked, GrpcBuild.FindTagResult(env, asked.link, m.baseImage, m.baseImageTag, id))
              && FindCachedTagResult(env, w, m).w.link.trace ==
                 w.link.trace + [InspectEvent(m), CachedTagReq(w.link.jobToken, m.baseImage, m.baseImageTag, id)]
  {
    hide Sound, SoundEnd, Grew, Control;
    if m.baseImage == SCRATCH_IMAGE_NAME {
      LookupStep(env, w, m, SCRATCH_IMAGE_ID);
    } else {
      var w1 := Emit(w, InspectEvent(m));
      EmitStep(env, w, InspectEvent(m));
      var image := env.inspect(|w.link.trace|);
      if image.Ok? {
        assert ForgetError(w1) == w1;
        LookupStep(env, w1, m, image.value.id);
        var r := Lift(w1, GrpcBuild.FindTagResult(env, w1.link, m.baseImage, m.baseImageTag, image.value.id));
        StageTrans(env, w, w1, r.w, false);
        GrewTrans(w.link.trace, w1.link.trace, r.w.link.trace, [], [], 0, 0);
        var none: seq<WirePhase> := [];
        assert none + none == none;
      }
    }
  }

  /** Nothing that streams was added. */
  ghost predicate OnlyQuiet(t: seq<Event>, u: seq<Event>) {
    forall i | |t| <= i < |u| :: !Streams(u[i])
  }

  lemma LookupStep(env: Env, w: World, m: Metadata, id: string)
    requires Clean(env, w)
    ensures var r := Lift(w, GrpcBuild.FindTagResult(env, w.link, m.baseImage, m.baseImageTag, id));
            && StageKeeps(env, w, r.w, false) && Clean(env, r.w) && !r.out.Halted?
            && Grew(w.link.trace, r.w.link.trace, [], 0)
            && OnlyQuiet(w.link.trace, r.w.link.trace)
  {
    hide Sound, SoundEnd, Grew, Control;
    FindTagKeeps(env, w, m.baseImage, m.baseImageTag, id);
    var r := Lift(w, GrpcBuild.FindTagResult(env, w.link, m.baseImage, m.baseImageTag, id));
    GrewByOne(w.link.trace, r.w.link.trace, CachedTagReq(w.link.jobToken, m.baseImage, m.baseImageTag, id));
  }

  /** What the cache stage leaves: the cache tag is set exactly if `repo:tag` was pulled by a
      clean attempt in this stage, and that attempt was its last. */
  ghost predicate CacheOutcome(env: Env, b: Builder, args: BuildArgs, r: Staged<()>) {
    var from, t := |b.w.link.trace|, r.b.w.link.trace;
    && StageKeeps(env, b.w, r.b.w, r.out.Halted?)
    && !r.out.Failed?
    && r.b == b.(w := r.b.w, cacheTag := r.b.cacheTag)
    && (Grew(b.w.link.trace, t, [PULLING], 0) || Grew(b.w.link.trace, t, [PULLING, PULLING], MAX_ATTEMPTS))
    && (r.b.cacheTag != b.cacheTag ==>
          r.b.cacheTag != "" && StopsAtFirstClean(env, from, t, PullCacheEvent(args, r.b.cacheTag)))
    && (r.out.Returned? && r.b.cacheTag == b.cacheTag == "" ==> NoneClean(env, from, t))
  }

  lemma CacheFacts(env: Env, b: Builder, args: BuildArgs)
    requires Clean(env, b.w) && b.cacheTag == ""
    ensures CacheOutcome(env, b, args, CacheResult(env, b, args))
  {
    hide Sound, SoundEnd, StageKeeps, GrpcBuild.SetPhaseResult, ToInt32, Grew, FindCachedTagResult, RetryFrom, FirstCleanAt, CleanCall;
    var t0 := b.w.link.trace;
    var s := SetPhase(env, b.w, CheckingCache, NO_PULL);
    PhaseStep(env, b.w, CheckingCache, NO_PULL);
    var f := FindCachedTagResult(env, s.w, b.metadata);
    FindTagFacts(env, s.w, b.metadata);
    StageTrans(env, b.w, s.w, f.w, false);
    GrewTrans(t0, s.w.link.trace, f.w.link.trace, [PULLING], [], 0, 0);
    assert [PULLING] + [] == [PULLING];
    PrefixOf(env, b.w, f.w, false);
    assert OnlyQuiet(t0, f.w.link.trace);
    if f.out.Returned? && args.pullToken != "" && f.out.value != "" {
      var u := SetPhase(env, f.w, PrimingCache, NO_PULL);
      PhaseStep(env, f.w, PrimingCache, NO_PULL);
      StageTrans(env, b.w, f.w, u.w, false);
      GrewTrans(t0, f.w.link.trace, u.w.link.trace, [PULLING], [PULLING], 0, 0);
      assert [PULLING] + [PULLING] == [PULLING, PULLING] == [PULLING, PULLING] + [];
      var e := PullCacheEvent(args, f.out.value);
      RetryStep(env, u.w, e);
      var r := RetryResult(env, u.w, e);
      StageTrans(env, b.w, u.w, r.w, r.out.Halted?);
      GrewTrans(t0, u.w.link.trace, r.w.link.trace, [PULLING, PULLING], [], 0, MAX_ATTEMPTS);
      assert OnlyQuiet(t0, u.w.link.trace);
      PrefixOf(env, u.w, r.w, r.out.Halted?);
      WiderRange(env, t0, u.w.link.trace, r, e);
    }
  }

  lemma PrefixOf(env: Env, w: World, v: World, halted: bool)
    requires StageKeeps(env, w, v, halted)
    ensures w.link.trace <= v.link.trace
  {
    hide Sound, SoundEnd;
  }

  /** Requests that stream nothing can be put before a retry without changing what it shows. */
  lemma WiderRange(env: Env, t: seq<Event>, u: seq<Event>, r: Did<()>, e: Event)
    requires t <= u && OnlyQuiet(t, u)
    requires u <= r.w.link.trace
    ensures r.out.Returned? && StopsAtFirstClean(env, |u|, r.w.link.trace, e) ==> StopsAtFirstClean(env, |t|, r.w.link.trace, e)
    ensures r.out.Failed? && NoneClean(env, |u|, r.w.link.trace) ==> NoneClean(env, |t|, r.w.link.trace)
  {
    hide CleanCall;
    if r.out.Returned? && StopsAtFirstClean(env, |u|, r.w.link.trace, e) {
      var j :| FirstCleanAt(env, |u|, r.w.link.trace, e, j);
      assert FirstCleanAt(env, |t|, r.w.link.trace, e, j);
    }
  }
}
