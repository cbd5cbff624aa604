/** The cache stage leaves nothing behind but the cache tag: two runs that differ only before
    Building go on in the same way. */
module NonInterference {
  import opened JsonScanner
  import opened Framing
  import opened JsonGrammar
  import opened Outside
  import opened DockerLogWriter
  import opened BuildContext
  import opened Trace
  import opened Soundness
  import opened Retries
  import opened Stages
  import opened Runs
  import opened Theorems
  import opened OwnStream
  import opened CacheTag
  import GrpcBuild

  /** Two runs, the lengths of their traces when Building starts, and how far the second one is
      ahead in phase numbers. */
  datatype Pair = Pair(env1: Env, env2: Env, m: nat, n: nat, d: int)

  /** The same answer, with a phase number that is `d` further. */
  predicate AlikeReply(r1: PhaseReply, r2: PhaseReply, d: int) {
    match (r1, r2)
    case (PhaseError(a), PhaseError(b)) => a == b
    case (PhaseReply(a, x), PhaseReply(b, y)) => a == b && y as int == x as int + d
    case _ => false
  }

  /** From Building on the outside world answers both runs alike. */
  ghost predicate AnswersAlike(p: Pair) {
    && p.env1.decode == p.env2.decode
    && p.env1.marshal == p.env2.marshal
    && p.env1.buildID == p.env2.buildID
    && forall k: nat :: AnswersAlikeAt(p, k)
  }

  predicate AnswersAlikeAt(p: Pair, k: nat) {
    && p.env1.send(p.m + k) == p.env2.send(p.n + k)
    && p.env1.container(p.m + k) == p.env2.container(p.n + k)
    && p.env1.inspect(p.m + k) == p.env2.inspect(p.n + k)
    && AlikeReply(p.env1.setPhase(p.m + k), p.env2.setPhase(p.n + k), p.d)
  }

  /** The same request; phase numbers may be `d` further, and log entries may be counted
      differently. */
  predicate AlikeEvent(e1: Event, e2: Event, d: int) {
    match (e1, e2)
    case (PhaseReq(t1, x, p1, m1), PhaseReq(t2, y, p2, m2)) => t1 == t2 && p1 == p2 && m1 == m2 && y as int == x as int + d
    case (LogReq(t1, _, m1), LogReq(t2, _, m2)) => t1 == t2 && m1 == m2
    case _ => e1 == e2
  }

  ghost predicate AlikeSuffix(p: Pair, t1: seq<Event>, t2: seq<Event>) {
    && p.m <= |t1| && p.n <= |t2| && |t1| - p.m == |t2| - p.n
    && forall i | p.m <= i < |t1| :: AlikeEvent(t1[i], t2[i - p.m + p.n], p.d)
  }

  const MOST := 0x7000_0000

  ghost predicate Alike(p: Pair, w1: World, w2: World) {
    && w1.writer == w2.writer
    && w1.link.jobToken == w2.link.jobToken
    && w2.link.phaseNum == w1.link.phaseNum + p.d
    && AlikeSuffix(p, w1.link.trace, w2.link.trace)
  }

  lemma AnswerHere(p: Pair, w1: World, w2: World)
    requires AnswersAlike(p) && Alike(p, w1, w2)
    ensures var i, j := |w1.link.trace|, |w2.link.trace|;
            && p.env1.send(i) == p.env2.send(j)
            && p.env1.container(i) == p.env2.container(j)
            && p.env1.inspect(i) == p.env2.inspect(j)
            && AlikeReply(p.env1.setPhase(i), p.env2.setPhase(j), p.d)
  {
    var k := |w1.link.trace| - p.m;
    assert AnswersAlikeAt(p, k);
  }

  lemma AlikeSnoc(p: Pair, t1: seq<Event>, t2: seq<Event>, e1: Event, e2: Event)
    requires AlikeSuffix(p, t1, t2) && AlikeEvent(e1, e2, p.d)
    ensures AlikeSuffix(p, t1 + [e1], t2 + [e2])
  {
    hide AlikeEvent;
    var u1, u2 := t1 + [e1], t2 + [e2];
    forall i | p.m <= i < |u1| ensures AlikeEvent(u1[i], u2[i - p.m + p.n], p.d) {
      if i < |t1| {
        assert AlikeEvent(t1[i], t2[i - p.m + p.n], p.d);
      }
    }
  }

  lemma AlikeEmit(p: Pair, w1: World, w2: World, e1: Event, e2: Event)
    requires Alike(p, w1, w2) && AlikeEvent(e1, e2, p.d)
    ensures Alike(p, Emit(w1, e1), Emit(w2, e2))
  {
    hide AlikeEvent, AlikeSuffix;
    AlikeSnoc(p, w1.link.trace, w2.link.trace, e1, e2);
  }

  lemma AlikeForget(p: Pair, w1: World, w2: World)
    requires Alike(p, w1, w2)
    ensures Alike(p, ForgetError(w1), ForgetError(w2))
  {
  }

  lemma AlikePartial(p: Pair, w1: World, w2: World, b: Bytes)
    requires Alike(p, w1, w2)
    ensures Alike(p, WithPartial(w1, b), WithPartial(w2, b))
  {
  }

  lemma AlikeSetPhase(p: Pair, w1: World, w2: World, phase: Phase, pull: PullMetadata)
    requires AnswersAlike(p) && Alike(p, w1, w2)
    requires 0 <= w1.link.phaseNum < MOST && 0 <= w2.link.phaseNum < MOST
    ensures var s1, s2 := SetPhase(p.env1, w1, phase, pull), SetPhase(p.env2, w2, phase, pull);
            Alike(p, s1.w, s2.w) && s1.out == s2.out && s1.w.link.phaseNum == w1.link.phaseNum + 1
  {
    AnswerHere(p, w1, w2);
    hide GrpcBuild.PhaseEnum, AnswersAlike, AlikeSuffix;
    GrpcBuild.NumberSurvives(w1.link.phaseNum + 1);
    GrpcBuild.NumberSurvives(w2.link.phaseNum + 1);
    hide ToInt32;
    var e1 := PhaseReq(w1.link.jobToken, ToInt32(w1.link.phaseNum + 1), GrpcBuild.PhaseEnum(phase), pull);
    var e2 := PhaseReq(w2.link.jobToken, ToInt32(w2.link.phaseNum + 1), GrpcBuild.PhaseEnum(phase), pull);
    AlikeSnoc(p, w1.link.trace, w2.link.trace, e1, e2);
  }

  // ---------------------------------------------------------------- streaming

  lemma AlikeAccept(p: Pair, w1: World, w2: World, text: Bytes)
    requires AnswersAlike(p) && Alike(p, w1, w2)
    ensures var a, b := Accept(p.env1, w1, text), Accept(p.env2, w2, text);
            Alike(p, a.w, b.w) && a.halted == b.halted && a.w.link.phaseNum == w1.link.phaseNum
  {
    AnswerHere(p, w1, w2);
    assert p.env1.marshal == p.env2.marshal;
    hide ToInt32, AlikeSuffix;
    var m := Interpret(p.env1, text);
    assert m == Interpret(p.env2, text);
    hide Interpret, AnswersAlike;
    if m.Some? && m.value.error == "" && p.env1.marshal(m.value).Some? {
      var entry := p.env1.marshal(m.value).value;
      var e1 := LogReq(w1.link.jobToken, ToInt32(w1.link.logNum + 1), entry);
      var e2 := LogReq(w2.link.jobToken, ToInt32(w2.link.logNum + 1), entry);
      AlikeSnoc(p, w1.link.trace, w2.link.trace, e1, e2);
    }
  }

  lemma {:induction false} AlikeDeliver(p: Pair, w1: World, w2: World, values: seq<Bytes>)
    requires AnswersAlike(p) && Alike(p, w1, w2)
    ensures var a, b := Deliver(p.env1, w1, values), Deliver(p.env2, w2, values);
            Alike(p, a.w, b.w) && a.halted == b.halted && a.w.link.phaseNum == w1.link.phaseNum
    decreases |values|
  {
    hide Alike, AnswersAlike, Accept;
    if values != [] {
      var n := |values| - 1;
      AlikeDeliver(p, w1, w2, values[..n]);
      var a, b := Deliver(p.env1, w1, values[..n]), Deliver(p.env2, w2, values[..n]);
      if !a.halted {
        AlikeAccept(p, a.w, b.w, values[n]);
      }
    }
  }

  lemma AlikeStream(p: Pair, w1: World, w2: World, chunks: seq<Bytes>)
    requires AnswersAlike(p) && Alike(p, w1, w2)
    ensures var a, b := StreamResult(p.env1, w1, chunks), StreamResult(p.env2, w2, chunks);
            Alike(p, a.w, b.w) && a.halted == b.halted && a.w.link.phaseNum == w1.link.phaseNum
  {
    StreamIsProcessed(p.env1, w1, chunks);
    StreamIsProcessed(p.env2, w2, chunks);
    assert w1.writer.partial == w2.writer.partial;
    var f := PiecesOf(w1.writer.partial, chunks);
    hide AnswersAlike, StreamResult, Deliver, Alike, PiecesOf;
    AlikeDeliver(p, w1, w2, f.values);
    var a, b := Deliver(p.env1, w1, f.values), Deliver(p.env2, w2, f.values);
    AlikePartial(p, a.w, b.w, if a.halted || f.halted then [] else f.rest);
  }

  /** Two outcomes alike, with the phase counter of the first moved by `steps`. */
  ghost predicate AlikeDid<T(!new)>(p: Pair, w1: World, r1: Did<T>, r2: Did<T>) {
    Alike(p, r1.w, r2.w) && r1.out == r2.out && r1.w.link.phaseNum == w1.link.phaseNum
  }

  lemma AlikeRequest(p: Pair, w1: World, w2: World, e: Event)
    requires AnswersAlike(p) && Alike(p, w1, w2) && Streams(e)
    ensures AlikeDid(p, w1, RequestResult(p.env1, w1, e), RequestResult(p.env2, w2, e))
  {
    hide StreamResult;
    AnswerHere(p, w1, w2);
    AlikeEmit(p, w1, w2, e, e);
    AlikeStream(p, Emit(w1, e), Emit(w2, e), p.env1.container(|w1.link.trace|).chunks);
  }

  lemma {:induction false} AlikeRetry(p: Pair, w1: World, w2: World, e: Event, i: nat)
    requires AnswersAlike(p) && Alike(p, w1, w2) && Streams(e) && i < MAX_ATTEMPTS
    ensures AlikeDid(p, w1, RetryFrom(p.env1, w1, e, i), RetryFrom(p.env2, w2, e, i))
    decreases MAX_ATTEMPTS - i
  {
    hide RequestResult, AnswersAlike, AlikeSuffix;
    var u1, u2 := ForgetError(w1), ForgetError(w2);
    AlikeForget(p, w1, w2);
    AlikeRequest(p, u1, u2, e);
    var r1, r2 := RequestResult(p.env1, u1, e), RequestResult(p.env2, u2, e);
    AlikeForget(p, r1.w, r2.w);
    if !r1.out.Halted? && i < MAX_ATTEMPTS - 1 {
      AlikeRetry(p, ForgetError(r1.w), ForgetError(r2.w), e, i + 1);
    }
  }

  // ---------------------------------------------------------------- stages

  lemma AlikeExecute(p: Pair, w1: World, w2: World, args: BuildArgs, dir: string, tag: string)
    requires AnswersAlike(p) && Alike(p, w1, w2)
    ensures AlikeDid(p, w1, ExecuteBuildResult(p.env1, w1, args, dir, tag), ExecuteBuildResult(p.env2, w2, args, dir, tag))
  {
    assert p.env1.buildID == p.env2.buildID;
    hide RequestResult, AnswersAlike, AlikeSuffix;
    var e := BuildEvent(p.env1, args, dir, tag);
    AlikeRequest(p, w1, w2, e);
    AlikeForget(p, RequestResult(p.env1, w1, e).w, RequestResult(p.env2, w2, e).w);
  }

  lemma AlikePushOne(p: Pair, w1: World, w2: World, args: BuildArgs, imageID: string, tag: string)
    requires AnswersAlike(p) && Alike(p, w1, w2)
    ensures AlikeDid(p, w1, PushOneResult(p.env1, w1, args, imageID, tag), PushOneResult(p.env2, w2, args, imageID, tag))
  {
    hide RetryFrom, AlikeSuffix;
    var e := TagEvent(args, imageID, tag);
    AnswerHere(p, w1, w2);
    hide AnswersAlike;
    AlikeEmit(p, w1, w2, e, e);
    AlikeForget(p, Emit(w1, e), Emit(w2, e));
    AlikeRetry(p, ForgetError(Emit(w1, e)), ForgetError(Emit(w2, e)), PushEvent(args, tag), 0);
  }

  lemma {:induction false} AlikePushFrom(p: Pair, w1: World, w2: World, args: BuildArgs, imageID: string, i: nat)
    requires AnswersAlike(p) && Alike(p, w1, w2) && i <= |args.tagNames|
    ensures AlikeDid(p, w1, PushFrom(p.env1, w1, args, imageID, i), PushFrom(p.env2, w2, args, imageID, i))
    decreases |args.tagNames| - i
  {
    hide PushOneResult, AnswersAlike, Alike;
    if i < |args.tagNames| {
      var tag := args.tagNames[i];
      AlikePushOne(p, w1, w2, args, imageID, tag);
      var r1, r2 := PushOneResult(p.env1, w1, args, imageID, tag), PushOneResult(p.env2, w2, args, imageID, tag);
      if r1.out.Returned? {
        AlikePushFrom(p, r1.w, r2.w, args, imageID, i + 1);
      }
    }
  }

  lemma AlikePushBuilt(p: Pair, w1: World, w2: World, args: BuildArgs, imageID: string)
    requires AnswersAlike(p) && Alike(p, w1, w2)
    ensures AlikeDid(p, w1, PushBuiltResult(p.env1, w1, args, imageID), PushBuiltResult(p.env2, w2, args, imageID))
  {
    hide PushFrom, AlikeSuffix;
    AlikePushFrom(p, w1, w2, args, imageID, 0);
    var r1, r2 := PushFrom(p.env1, w1, args, imageID, 0), PushFrom(p.env2, w2, args, imageID, 0);
    AnswerHere(p, r1.w, r2.w);
    hide AnswersAlike;
    AlikeEmit(p, r1.w, r2.w, InspectReq(imageID), InspectReq(imageID));
    AlikeForget(p, Emit(r1.w, InspectReq(imageID)), Emit(r2.w, InspectReq(imageID)));
  }

  ghost predicate AlikeStaged<T(!new)>(p: Pair, b1: Builder, r1: Staged<T>, r2: Staged<T>) {
    && Alike(p, r1.b.w, r2.b.w) && r1.out == r2.out
    && r1.b.(w := r2.b.w) == r2.b
    && r1.b.w.link.phaseNum == b1.w.link.phaseNum + 1
  }

  /** Two builders with equal fields in worlds alike, with room in the phase counters. */
  ghost predicate AlikeBuilders(p: Pair, b1: Builder, b2: Builder, room: nat) {
    && AnswersAlike(p) && Alike(p, b1.w, b2.w) && b1.(w := b2.w) == b2
    && 0 <= b1.w.link.phaseNum && b1.w.link.phaseNum + room < MOST
    && 0 <= b2.w.link.phaseNum && b2.w.link.phaseNum + room < MOST
  }

  lemma AlikeBuildStage(p: Pair, b1: Builder, b2: Builder, args: BuildArgs)
    requires AlikeBuilders(p, b1, b2, 0)
    ensures AlikeStaged(p, b1, BuildResult(p.env1, b1, args), BuildResult(p.env2, b2, args))
  {
    AlikeSetPhase(p, b1.w, b2.w, Building, NO_PULL);
    hide SetPhase, ExecuteBuildResult, AnswersAlike, AlikeSuffix;
    var s1, s2 := SetPhase(p.env1, b1.w, Building, NO_PULL), SetPhase(p.env2, b2.w, Building, NO_PULL);
    AlikeExecute(p, s1.w, s2.w, args, b1.buildpackDir, b1.cacheTag);
    var x1 := ExecuteBuildResult(p.env1, s1.w, args, b1.buildpackDir, b1.cacheTag);
    var x2 := ExecuteBuildResult(p.env2, s2.w, args, b1.buildpackDir, b1.cacheTag);
    AlikeEmit(p, x1.w, x2.w, RemoveDirReq(b1.buildpackDir), RemoveDirReq(b1.buildpackDir));
  }

  lemma AlikePushStage(p: Pair, b1: Builder, b2: Builder, args: BuildArgs)
    requires AlikeBuilders(p, b1, b2, 0)
    ensures AlikeStaged(p, b1, PushResult(p.env1, b1, args), PushResult(p.env2, b2, args))
  {
    AlikeSetPhase(p, b1.w, b2.w, Pushing, NO_PULL);
    hide SetPhase, PushBuiltResult, AnswersAlike, AlikeSuffix;
    var s1, s2 := SetPhase(p.env1, b1.w, Pushing, NO_PULL), SetPhase(p.env2, b2.w, Pushing, NO_PULL);
    AlikePushBuilt(p, s1.w, s2.w, args, b1.buildID);
  }

  lemma AlikeCleanup(p: Pair, b1: Builder, b2: Builder, args: BuildArgs, imageID: string)
    requires Alike(p, b1.w, b2.w) && b1.(w := b2.w) == b2
    ensures var r1, r2 := CleanupResult(p.env1, b1, args, imageID), CleanupResult(p.env2, b2, args, imageID);
            Alike(p, r1.b.w, r2.b.w) && r1.out == r2.out && r1.b.(w := r2.b.w) == r2.b
            && r1.b.w.link.phaseNum == b1.w.link.phaseNum
  {
    hide Alike, CacheImage, BaseImage;
    var c := RemoveReq(CacheImage(args, b1.cacheTag));
    var u1 := if b1.cacheTag != "" then Emit(b1.w, c) else b1.w;
    var u2 := if b1.cacheTag != "" then Emit(b2.w, c) else b2.w;
    if b1.cacheTag != "" {
      AlikeEmit(p, b1.w, b2.w, c, c);
    }
    var base, image := RemoveReq(BaseImage(b1.metadata)), RemoveReq(imageID);
    AlikeEmit(p, u1, u2, base, base);
    AlikeEmit(p, Emit(u1, base), Emit(u2, base), image, image);
    AlikeEmit(p, Emit(Emit(u1, base), image), Emit(Emit(u2, base), image), PruneReq, PruneReq);
  }

  lemma AlikeComplete(p: Pair, b1: Builder, b2: Builder, args: BuildArgs, bmd: BuildMetadata)
    requires AlikeBuilders(p, b1, b2, 0)
    ensures AlikeStaged(p, b1, CompleteResult(p.env1, b1, args, bmd), CompleteResult(p.env2, b2, args, bmd))
  {
    AlikeEmit(p, b1.w, b2.w, StopHeartbeat, StopHeartbeat);
    AlikeSetPhase(p, Emit(b1.w, StopHeartbeat), Emit(b2.w, StopHeartbeat), Phase.Complete, NO_PULL);
    hide SetPhase, CleanupResult, AnswersAlike, AlikeSuffix;
    var s1, s2 := SetPhase(p.env1, Emit(b1.w, StopHeartbeat), Phase.Complete, NO_PULL), SetPhase(p.env2, Emit(b2.w, StopHeartbeat), Phase.Complete, NO_PULL);
    AlikeCleanup(p, b1.(w := s1.w), b2.(w := s2.w), args, bmd.imageID);
  }

  /** Two builders that start Building with equal fields, an equal writer and the same job token,
      and that are answered alike from then on, make the same requests from then on, with phase
      numbers `d` apart, and end alike. */
  lemma AlikeFinish(p: Pair, b1: Builder, b2: Builder, args: BuildArgs)
    requires AlikeBuilders(p, b1, b2, 3)
    ensures var r1, r2 := FinishResult(p.env1, b1, args), FinishResult(p.env2, b2, args);
            && AlikeSuffix(p, r1.b.w.link.trace, r2.b.w.link.trace)
            && r1.out == r2.out
            && r1.b.(w := r2.b.w) == r2.b
  {
    hide BuildResult, PushResult, CompleteResult, AnswersAlike, AlikeSuffix;
    AlikeBuildStage(p, b1, b2, args);
    var x1, x2 := BuildResult(p.env1, b1, args), BuildResult(p.env2, b2, args);
    if x1.out.Returned? {
      AlikePushStage(p, x1.b, x2.b, args);
      var y1, y2 := PushResult(p.env1, x1.b, args), PushResult(p.env2, x2.b, args);
      if y1.out.Returned? {
        AlikeComplete(p, y1.b, y2.b, args, y1.out.value);
      }
    }
  }

  /** The two runs of one builder from the cache stage on, paired from Building on. */
  ghost function CachePair(env1: Env, env2: Env, b: Builder, args: BuildArgs): Pair {
    var c1, c2 := CacheResult(env1, b, args).b.w.link, CacheResult(env2, b, args).b.w.link;
    Pair(env1, env2, |c1.trace|, |c2.trace|, c2.phaseNum - c1.phaseNum)
  }

  /** Whatever happens in the cache stage, if it sets no cache tag and its pulls end at the same
      unfinished value (none, when they end on an object boundary), then the rest of the run
      makes the same container requests and the same phase requests up to a shift of their
      numbers by at most one, sends the same log entries, and ends with the same result. */
  lemma CacheNonInterference(env1: Env, env2: Env, b: Builder, args: BuildArgs)
    requires Clean(env1, b.w) && Clean(env2, b.w) && b.cacheTag == ""
    requires b.w.link.phaseNum < MOST - 5
    requires var c1, c2 := CacheResult(env1, b, args), CacheResult(env2, b, args);
             && c1.out.Returned? && c2.out.Returned?
             && c1.b.cacheTag == c2.b.cacheTag == ""
             && c1.b.w.writer.partial == c2.b.w.writer.partial
    requires AnswersAlike(CachePair(env1, env2, b, args))
    ensures var p := CachePair(env1, env2, b, args);
            var r1, r2 := FromCacheResult(env1, b, args), FromCacheResult(env2, b, args);
            && -1 <= p.d <= 1
            && AlikeSuffix(p, r1.b.w.link.trace, r2.b.w.link.trace)
            && r1.out == r2.out
            && r1.b.(w := r2.b.w) == r2.b
  {
    hide CacheResult, FinishResult, Keeps, Sound, SoundEnd, Grew, AnswersAlike, StopsAtFirstClean, NoneClean;
    var c1, c2 := CacheResult(env1, b, args).b, CacheResult(env2, b, args).b;
    CachePhaseNum(env1, b, args);
    CachePhaseNum(env2, b, args);
    CacheFacts(env1, b, args);
    CacheFacts(env2, b, args);
    LedgerOf(env1, b.w, c1.w, false);
    LedgerOf(env2, b.w, c2.w, false);
    var p := CachePair(env1, env2, b, args);
    assert AlikeBuilders(p, c1, c2, 3);
    AlikeFinish(p, c1, c2, args);
  }

  lemma CachePhaseNum(env: Env, b: Builder, args: BuildArgs)
    requires Clean(env, b.w) && b.cacheTag == "" && CacheResult(env, b, args).out.Returned?
    ensures 0 <= b.w.link.phaseNum
    ensures var c := CacheResult(env, b, args).b;
            b.w.link.phaseNum + 1 <= c.w.link.phaseNum <= b.w.link.phaseNum + 2
  {
    hide CacheResult, Numbered, Sends, Phases, Synced, Transfers, Removals, PhaseCount, StopsAtFirstClean, NoneClean;
    CacheFacts(env, b, args);
    PhaseCountIs(b.w.link.trace);
    PhaseCountIs(CacheResult(env, b, args).b.w.link.trace);
  }

  // ---------------------------------------------------------------- up to the cache stage

  /** Two worlds that answer the first `n` requests alike. */
  ghost predicate AgreeBelow(env1: Env, env2: Env, n: nat) {
    && env1.decode == env2.decode
    && env1.marshal == env2.marshal
    && forall k: nat | k < n :: AgreeAt(env1, env2, k)
  }

  predicate AgreeAt(env1: Env, env2: Env, k: nat) {
    && env1.setPhase(k) == env2.setPhase(k)
    && env1.send(k) == env2.send(k)
    && env1.container(k) == env2.container(k)
    && env1.download(k) == env2.download(k)
    && env1.parse(k) == env2.parse(k)
  }

  // What is done depends only on the answers to the requests that were made: if the second world
  // agrees with the first one on those, it leads to the same result.

  lemma SameAccept(env1: Env, env2: Env, w: World, text: Bytes)
    ensures var p := Accept(env1, w, text);
            && |w.link.trace| <= |p.w.link.trace|
            && (AgreeBelow(env1, env2, |p.w.link.trace|) ==> Accept(env2, w, text) == p)
  {
    hide ToInt32;
    if AgreeBelow(env1, env2, |w.link.trace| + 1) {
      assert AgreeAt(env1, env2, |w.link.trace|);
    }
  }

  lemma {:induction false} SameDeliver(env1: Env, env2: Env, w: World, values: seq<Bytes>)
    ensures var p := Deliver(env1, w, values);
            && |w.link.trace| <= |p.w.link.trace|
            && (AgreeBelow(env1, env2, |p.w.link.trace|) ==> Deliver(env2, w, values) == p)
    decreases |values|
  {
    hide Accept, AgreeAt;
    if values != [] {
      var n := |values| - 1;
      SameDeliver(env1, env2, w, values[..n]);
      SameAccept(env1, env2, Deliver(env1, w, values[..n]).w, values[n]);
    }
  }

  lemma SameRequest(env1: Env, env2: Env, w: World, e: Event)
    ensures var r := RequestResult(env1, w, e);
            && |w.link.trace| < |r.w.link.trace|
            && (AgreeBelow(env1, env2, |r.w.link.trace|) ==> RequestResult(env2, w, e) == r)
  {
    hide Deliver, PiecesOf, StreamResult;
    var w1 := Emit(w, e);
    var chunks := env1.container(|w.link.trace|).chunks;
    var values := PiecesOf(w.writer.partial, chunks).values;
    StreamIsProcessed(env1, w1, chunks);
    StreamIsProcessed(env2, w1, chunks);
    SameDeliver(env1, env2, w1, values);
    if AgreeBelow(env1, env2, |RequestResult(env1, w, e).w.link.trace|) {
      assert AgreeAt(env1, env2, |w.link.trace|);
    }
  }

  lemma {:induction false} SameRetry(env1: Env, env2: Env, w: World, e: Event, i: nat)
    requires i < MAX_ATTEMPTS
    ensures var r := RetryFrom(env1, w, e, i);
            && |w.link.trace| < |r.w.link.trace|
            && (AgreeBelow(env1, env2, |r.w.link.trace|) ==> RetryFrom(env2, w, e, i) == r)
    decreases MAX_ATTEMPTS - i
  {
    hide RequestResult, AgreeAt;
    SameRequest(env1, env2, ForgetError(w), e);
    var r := RequestResult(env1, ForgetError(w), e);
    if !r.out.Halted? && i < MAX_ATTEMPTS - 1 {
      SameRetry(env1, env2, ForgetError(r.w), e, i + 1);
    }
  }

  lemma SamePhase(env1: Env, env2: Env, w: World, phase: Phase, pull: PullMetadata)
    ensures var s := SetPhase(env1, w, phase, pull);
            && |w.link.trace| < |s.w.link.trace|
            && (AgreeBelow(env1, env2, |s.w.link.trace|) ==> SetPhase(env2, w, phase, pull) == s)
  {
    hide ToInt32, GrpcBuild.PhaseEnum;
    if AgreeBelow(env1, env2, |w.link.trace| + 1) {
      assert AgreeAt(env1, env2, |w.link.trace|);
    }
  }

  lemma SameUnpack(env1: Env, env2: Env, b: Builder, args: BuildArgs)
    ensures var r := UnpackResult(env1, b, args);
            && |b.w.link.trace| < |r.b.w.link.trace|
            && (AgreeBelow(env1, env2, |r.b.w.link.trace|) ==> UnpackResult(env2, b, args) == r)
  {
    SamePhase(env1, env2, b.w, Unpacking, NO_PULL);
    hide SetPhase;
    var r, n := UnpackResult(env1, b, args), |SetPhase(env1, b.w, Unpacking, NO_PULL).w.link.trace|;
    if AgreeBelow(env1, env2, |r.b.w.link.trace|) {
      assert n < |r.b.w.link.trace| ==> AgreeAt(env1, env2, n);
      assert n + 1 < |r.b.w.link.trace| ==> AgreeAt(env1, env2, n + 1);
    }
  }

  lemma SamePull(env1: Env, env2: Env, b: Builder, args: BuildArgs)
    ensures var r := PullResult(env1, b, args);
            && |b.w.link.trace| < |r.b.w.link.trace|
            && (AgreeBelow(env1, env2, |r.b.w.link.trace|) ==> PullResult(env2, b, args) == r)
  {
    var pull := PullMetadataOf(args, b.metadata);
    SamePhase(env1, env2, b.w, Pulling, pull);
    hide SetPhase, RetryFrom, AgreeAt;
    SameRetry(env1, env2, SetPhase(env1, b.w, Pulling, pull).w, PullBaseEvent(args, b.metadata), 0);
  }

  lemma SameStart(env1: Env, env2: Env, args: BuildArgs, l: Link)
    requires ReachesCache(env1, args, l) && AgreeBelow(env1, env2, |AtCache(env1, args, l).w.link.trace|)
    ensures ReachesCache(env2, args, l) && AtCache(env2, args, l) == AtCache(env1, args, l)
  {
    hide UnpackResult, PullResult, AgreeAt;
    var b := NewBuilder(l);
    SameUnpack(env1, env2, b, args);
    SamePull(env1, env2, UnpackResult(env1, b, args).b, args);
  }

  // ---------------------------------------------------------------- two whole runs

  /** After a value boundary the partial buffer is empty. */
  lemma BoundaryEmpties(env: Env, w: World)
    requires Synced(env, w) && AtBoundary(env, w.link.trace)
    ensures w.writer.partial == []
  {
    hide FramesOf, PiecesOf;
    PiecesTrackRest(ChunksOf(env, w.link.trace));
  }

  /** Two runs of one job that are answered alike, but for what happens in the cache stage. If in
      both that stage sets no tag, and all the bytes streamed up to its end stop on a value
      boundary, then from Building on they make the same requests, with phase numbers shifted by
      at most one, send the same log entries, and end with the same result. */
  lemma RunNonInterference(env1: Env, env2: Env, args: BuildArgs, l: Link)
    requires Registered(l) && ReachesCache(env1, args, l)
    requires AgreeBelow(env1, env2, |AtCache(env1, args, l).w.link.trace|)
    requires var b := AtCache(env1, args, l);
             var c1, c2 := CacheResult(env1, b, args), CacheResult(env2, b, args);
             && c1.out.Returned? && c2.out.Returned?
             && c1.b.cacheTag == c2.b.cacheTag == ""
             && AtBoundary(env1, c1.b.w.link.trace) && AtBoundary(env2, c2.b.w.link.trace)
             && AnswersAlike(CachePair(env1, env2, b, args))
    ensures var p := CachePair(env1, env2, AtCache(env1, args, l), args);
            var r1, r2 := RunResult(env1, NewBuilder(l), args), RunResult(env2, NewBuilder(l), args);
            && -1 <= p.d <= 1
            && AlikeSuffix(p, r1.b.w.link.trace, r2.b.w.link.trace)
            && r1.out == r2.out
            && r1.b.(w := r2.b.w) == r2.b
  {
    hide CacheResult, FromCacheResult, RunResult, AtCache, ReachesCache, AgreeBelow, AnswersAlike, AtBoundary, AlikeSuffix, Sound, Keeps, Grew, StopsAtFirstClean, NoneClean, Phases;
    SameStart(env1, env2, args, l);
    CacheStarts(env1, args, l);
    CacheStarts(env2, args, l);
    var b := AtCache(env1, args, l);
    CacheKeepsSynced(env1, b, args);
    CacheKeepsSynced(env2, b, args);
    BoundaryEmpties(env1, CacheResult(env1, b, args).b.w);
    BoundaryEmpties(env2, CacheResult(env2, b, args).b.w);
    CacheNonInterference(env1, env2, b, args);
  }

  lemma CacheKeepsSynced(env: Env, b: Builder, args: BuildArgs)
    requires Clean(env, b.w) && b.cacheTag == "" && CacheResult(env, b, args).out.Returned?
    ensures Synced(env, CacheResult(env, b, args).b.w)
  {
    hide CacheResult, Ledger, Synced, Grew, StopsAtFirstClean, NoneClean;
    CacheFacts(env, b, args);
  }
}
