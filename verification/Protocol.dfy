/** What a build asks of the outside world, step by step, as an automaton over its trace.

    A point of the protocol says what the next request is and, for each answer to it, what the
    next point is. The requests are written out field by field, and nothing of `BuildContext`
    occurs in the automaton: it is a second account of a run, and every run is proved to follow it
    and to end as it says. */
module Protocol {
  import opened JsonScanner
  import opened Framing
  import opened Outside
  import opened DockerLogWriter
  import opened BuildContext
  import opened Trace
  import opened Soundness
  import opened Retries
  import opened Stages
  import opened Finish
  import opened Runs
  import GrpcBuild

  // ---------------------------------------------------------------- the automaton

  /** What a run has learnt: the build directory, the base image and the cache tag. */
  datatype Work = Work(dir: string, image: string, tag: string, cacheTag: string)

  /** The three requests that are retried. */
  datatype Goal = PullBase | PullCached(candidate: string) | PushName(i: nat)

  datatype Point =
    | ReportUnpacking
    | Download
    | Parse(dir: string)
    | ReportPulling(k: Work)
    | Try(k: Work, goal: Goal, failures: nat)
    | ReportChecking(k: Work)
    | InspectBase(k: Work)
    | AskForTag(k: Work, imageID: string)
    | ReportPriming(k: Work, candidate: string)
    | ReportBuilding(k: Work)
    | Build(k: Work)
    | RemoveDir(k: Work, failure: Option<string>)
    | ReportPushing(k: Work)
    | TagName(k: Work, i: nat)
    | InspectBuilt(k: Work)
    | StopBeating(k: Work, done: BuildMetadata)
    | ReportComplete(k: Work, done: BuildMetadata)
    | RemoveCached(k: Work, done: BuildMetadata)
    | RemoveBase(k: Work, done: BuildMetadata)
    | RemoveBuilt(done: BuildMetadata)
    | Prune(done: BuildMetadata)
    | Over(out: Outcome<BuildMetadata>)

  /** The job as registered: its token, its arguments, and the name under which it is built. */
  datatype Task = Task(token: string, args: BuildArgs, buildID: string)
  {
    function Repository(): string {
      args.registry + "/" + args.repository
    }
  }

  predicate Reports(j: Task, number: nat, e: Event, phase: WirePhase, pull: PullMetadata) {
    e.PhaseReq? && e.token == j.token && e.number as int == number && e.phase == phase && e.pull == pull
  }

  /** The request at a point; `number` is the number of the next phase update. */
  predicate Asks(j: Task, number: nat, p: Point, e: Event) {
    var none := PullMetadata("", "", "", "");
    match p
    case ReportUnpacking => Reports(j, number, e, UNPACKING, none)
    case Download => e == DownloadReq
    case Parse(dir) => e == ParseReq(dir, j.args.dockerfilePath)
    case ReportPulling(k) =>
      Reports(j, number, e, PULLING, PullMetadata(j.args.registry, k.image, k.tag, j.args.baseImage.username))
    case Try(k, PullBase, _) =>
      var own := j.args.baseImage.username != "" && j.args.registry <= k.image;
      e == PullReq(j.args.registry, k.image, k.tag, if own then j.args.baseImage else Auth("", ""))
    case Try(_, PullCached(candidate), _) =>
      e == PullReq(j.args.registry, j.Repository(), candidate, Auth("$token", j.args.pullToken))
    case Try(_, PushName(i), _) =>
      i < |j.args.tagNames| &&
      e == PushReq(j.args.registry, j.Repository(), j.args.tagNames[i], Auth("$token", j.args.pushToken))
    case ReportChecking(_) => Reports(j, number, e, PULLING, none)
    case InspectBase(k) => e == InspectReq(k.image + ":" + k.tag)
    case AskForTag(k, imageID) => e == CachedTagReq(j.token, k.image, k.tag, imageID)
    case ReportPriming(_, _) => Reports(j, number, e, PULLING, none)
    case ReportBuilding(_) => Reports(j, number, e, BUILDING, none)
    case Build(k) =>
      e == BuildReq(j.buildID, if k.cacheTag == "" then [] else [j.Repository() + ":" + k.cacheTag],
                    j.args.dockerfilePath, k.dir)
    case RemoveDir(k, _) => e == RemoveDirReq(k.dir)
    case ReportPushing(_) => Reports(j, number, e, PUSHING, none)
    case TagName(_, i) => i < |j.args.tagNames| && e == TagReq(j.buildID, j.Repository(), j.args.tagNames[i])
    case InspectBuilt(_) => e == InspectReq(j.buildID)
    case StopBeating(_, _) => e == StopHeartbeat
    case ReportComplete(_, _) => Reports(j, number, e, COMPLETE, none)
    case RemoveCached(k, _) => e == RemoveReq(j.Repository() + ":" + k.cacheTag)
    case RemoveBase(k, _) => e == RemoveReq(if k.tag != "" then k.image + ":" + k.tag else k.image)
    case RemoveBuilt(done) => e == RemoveReq(done.imageID)
    case Prune(_) => e == PruneReq
    case Over(_) => false
  }

  /** The error of a phase update, if it was not accepted with the number it carried. */
  function PhaseFailure(reply: PhaseReply, number: nat): Option<Error> {
    match reply
    case PhaseError(m) => Some(Plain(m))
    case PhaseReply(success, echo) => if success && echo as int == number then None else Some(RejectedPhase)
  }

  /** The error of the streaming request that is the last one of `t`, at position `n`: the
      runtime's own, or else that of the last error object that it completed. */
  function StreamFailure(env: Env, t: seq<Event>, n: nat): Option<string>
    requires n < |t|
  {
    match env.container(n).err
    case Some(m) => Some(m)
    case None =>
      var last := LastError(env, NewlyCompleted(env, t, n));
      if last.Some? then Some(last.value.error) else None
  }

  function StartPull(k: Work): Point {
    if k.image == "scratch" then ReportChecking(k) else Try(k, PullBase, 0)
  }

  function StartLookup(k: Work): Point {
    if k.image == "scratch" then
      AskForTag(k, "511136ea3c5a64f264b78b5433614aec563103b4d4702f3ba7d4d2698e22c158")
    else InspectBase(k)
  }

  function NextName(j: Task, k: Work, i: nat): Point {
    if i < |j.args.tagNames| then TagName(k, i) else InspectBuilt(k)
  }

  /** Where a retried request leads when an attempt succeeds, and when the third one fails. */
  function Succeeded(j: Task, k: Work, goal: Goal): Point {
    match goal
    case PullBase => ReportChecking(k)
    case PullCached(candidate) => ReportBuilding(k.(cacheTag := candidate))
    case PushName(i) => NextName(j, k, i + 1)
  }

  function GaveUp(k: Work, goal: Goal, message: string): Point {
    match goal
    case PullBase => Over(Failed(PullError(message)))
    case PullCached(_) => ReportBuilding(k)
    case PushName(_) => Over(Failed(PushError(message)))
  }

  function Unless(failure: Option<Error>, next: Point): Point {
    match failure
    case None => next
    case Some(error) => Over(Failed(error))
  }

  /** The point after the request at `p`, which is the last request of `t`, at position `n`. */
  function Next(env: Env, j: Task, number: nat, p: Point, t: seq<Event>, n: nat): Point
    requires n < |t|
  {
    var refusal := PhaseFailure(env.setPhase(n), number);
    match p
    case ReportUnpacking => Unless(refusal, Download)
    case Download =>
      (match env.download(n)
       case Ok(dir) => Parse(dir)
       case Err(m) => Over(Failed(Plain(m))))
    case Parse(dir) =>
      (match env.parse(n)
       case Ok(m) => ReportPulling(Work(dir, m.baseImage, m.baseImageTag, ""))
       case Err(m) => Over(Failed(Plain(m))))
    case ReportPulling(k) => Unless(refusal, StartPull(k))
    case Try(k, goal, failures) =>
      (match StreamFailure(env, t, n)
       case None => Succeeded(j, k, goal)
       case Some(m) => if failures >= 2 then GaveUp(k, goal, m) else Try(k, goal, failures + 1))
    case ReportChecking(k) => StartLookup(k)
    case InspectBase(k) =>
      (match env.inspect(n)
       case Ok(image) => AskForTag(k, image.id)
       case Err(_) => ReportBuilding(k))
    case AskForTag(k, _) =>
      (match env.cachedTag(n)
       case Ok(tag) => if j.args.pullToken != "" && tag != "" then ReportPriming(k, tag) else ReportBuilding(k)
       case Err(_) => ReportBuilding(k))
    case ReportPriming(k, candidate) => Try(k, PullCached(candidate), 0)
    case ReportBuilding(k) => Unless(refusal, Build(k))
    case Build(k) => RemoveDir(k, StreamFailure(env, t, n))
    case RemoveDir(k, failure) =>
      (match failure
       case None => ReportPushing(k)
       case Some(m) => Over(Failed(BuildFailed(m))))
    case ReportPushing(k) => Unless(refusal, NextName(j, k, 0))
    case TagName(k, i) =>
      (match env.container(n).err
       case None => Try(k, PushName(i), 0)
       case Some(m) => Over(Failed(TagError(m))))
    case InspectBuilt(k) =>
      (match env.inspect(n)
       case Ok(image) => StopBeating(k, BuildMetadata(image.id, image.digests))
       case Err(m) => Over(Failed(TagError(m))))
    case StopBeating(k, done) => ReportComplete(k, done)
    case ReportComplete(k, done) => Unless(refusal, if k.cacheTag != "" then RemoveCached(k, done) else RemoveBase(k, done))
    case RemoveCached(k, done) => RemoveBase(k, done)
    case RemoveBase(_, done) => RemoveBuilt(done)
    case RemoveBuilt(done) => Prune(done)
    case Prune(done) => Over(Returned(done))
    case Over(_) => p
  }

  /** The point reached by a trace that begins with the registration. Log entries do not count. */
  function PointAt(env: Env, j: Task, t: seq<Event>): Point {
    if |t| <= 1 then ReportUnpacking
    else
      var n := |t| - 1;
      var p := PointAt(env, j, t[..n]);
      if t[n].LogReq? then p else Next(env, j, PhaseCount(t[..n]) + 1, p, t, n)
  }

  /** The request at position `i` is the one that the protocol asks for; a log entry comes only
      right after a streaming request or another log entry. */
  predicate FollowsAt(env: Env, j: Task, t: seq<Event>, i: nat)
    requires 0 < i < |t|
  {
    if t[i].LogReq? then t[i - 1].LogReq? || Streams(t[i - 1])
    else Asks(j, PhaseCount(t[..i]) + 1, PointAt(env, j, t[..i]), t[i])
  }

  ghost predicate Follows(env: Env, j: Task, t: seq<Event>) {
    forall i | 0 < i < |t| :: FollowsAt(env, j, t, i)
  }

  // ---------------------------------------------------------------- one step

  lemma PointSnoc(env: Env, j: Task, t: seq<Event>, e: Event)
    requires t != []
    ensures PointAt(env, j, t + [e]) ==
            if e.LogReq? then PointAt(env, j, t)
            else Next(env, j, PhaseCount(t) + 1, PointAt(env, j, t), t + [e], |t|)
  {
    hide Next;
    assert (t + [e])[..|t|] == t;
  }

  lemma FollowsSnoc(env: Env, j: Task, t: seq<Event>, e: Event)
    requires t != [] && Follows(env, j, t)
    requires if e.LogReq? then t[|t| - 1].LogReq? || Streams(t[|t| - 1])
             else Asks(j, PhaseCount(t) + 1, PointAt(env, j, t), e)
    ensures Follows(env, j, t + [e])
  {
    hide Asks, PointAt;
    var u := t + [e];
    forall i | 0 < i < |u| ensures FollowsAt(env, j, u, i) {
      if i < |t| {
        assert FollowsAt(env, j, t, i);
        assert u[..i] == t[..i];
      } else {
        assert u[..i] == t;
      }
    }
  }

  /** Log entries after a streaming request leave the point as it is. */
  lemma {:induction false} LogsStay(env: Env, j: Task, t: seq<Event>, u: seq<Event>)
    requires t != [] && t <= u && OnlyLogs(t, u) && Follows(env, j, t) && Streams(t[|t| - 1])
    ensures Follows(env, j, u) && PointAt(env, j, u) == PointAt(env, j, t)
    decreases |u|
  {
    hide PointAt, Follows;
    if |u| == |t| {
      assert u == t;
    } else {
      var n := |u| - 1;
      var v := u[..n];
      assert u == v + [u[n]];
      LogsStay(env, j, t, v);
      assert |v| == |t| ==> v == t;
      PointSnoc(env, j, v, u[n]);
      FollowsSnoc(env, j, v, u[n]);
    }
  }

  /** The builder is at a point: its trace follows the protocol up to there, and it has reported at
      most so many phases. */
  ghost predicate On(env: Env, j: Task, w: World, p: Point, most: nat) {
    && Clean(env, w) && w.link.jobToken == j.token && w.link.phaseNum <= most
    && w.link.trace != [] && Follows(env, j, w.link.trace) && PointAt(env, j, w.link.trace) == p
  }

  lemma NumberIs(env: Env, j: Task, w: World, p: Point, most: nat)
    requires On(env, j, w, p, most)
    ensures w.link.phaseNum == PhaseCount(w.link.trace)
  {
    hide Synced, Undisturbed, Follows, PointAt;
  }

  /** What the request `e` at the point `p` leads to. */
  ghost function NextPoint(env: Env, j: Task, w: World, p: Point, e: Event): Point {
    Next(env, j, PhaseCount(w.link.trace) + 1, p, w.link.trace + [e], |w.link.trace|)
  }

  lemma OnEmit(env: Env, j: Task, w: World, p: Point, most: nat, e: Event)
    requires On(env, j, w, p, most) && Asks(j, PhaseCount(w.link.trace) + 1, p, e)
    requires !e.PhaseReq? && !e.LogReq? && !e.CachedTagReq? && !Streams(e)
    ensures On(env, j, Emit(w, e), NextPoint(env, j, w, p, e), most)
  {
    hide Sound, Next, Asks, Follows, PointAt;
    EmitKeeps(env, w, e);
    KeepsSound(env, w, Emit(w, e));
    PointSnoc(env, j, w.link.trace, e);
    FollowsSnoc(env, j, w.link.trace, e);
  }

  /** At the point `p` the phase `phase` is reported; `next` comes after it, unless the update is
      refused and that matters. */
  ghost predicate IsReport(env: Env, j: Task, p: Point, phase: WirePhase, pull: PullMetadata, matters: bool, next: Point) {
    && (forall number: nat, e: Event | Reports(j, number, e, phase, pull) :: Asks(j, number, p, e))
    && (forall number: nat, t: seq<Event>, n: nat | n < |t| ::
          Next(env, j, number, p, t, n) == if matters then Unless(PhaseFailure(env.setPhase(n), number), next) else next)
  }

  lemma PhaseAnswer(env: Env, w: World, phase: Phase, pull: PullMetadata, number: nat)
    requires w.link.phaseNum + 1 == number
    ensures var failure := PhaseFailure(env.setPhase(|w.link.trace|), number);
            SetPhase(env, w, phase, pull).out == if failure.None? then Returned(()) else Failed(failure.value)
  {
    hide ToInt32, GrpcBuild.PhaseEnum;
  }

  lemma OnPhase(env: Env, j: Task, w: World, p: Point, most: nat, phase: Phase, pull: PullMetadata, matters: bool, next: Point)
    requires On(env, j, w, p, most) && most <= 100
    requires IsReport(env, j, p, GrpcBuild.PhaseEnum(phase), pull, matters, next)
    ensures var s := SetPhase(env, w, phase, pull);
            && !s.out.Halted?
            && On(env, j, s.w, if matters && s.out.Failed? then Over(Failed(s.out.error)) else next, most + 1)
  {
    hide Sound, Next, Follows, PointAt, GrpcBuild.PhaseEnum, Asks, GrpcBuild.SetPhaseResult;
    NumberIs(env, j, w, p, most);
    var t, number := w.link.trace, w.link.phaseNum + 1;
    var e := PhaseReq(w.link.jobToken, ToInt32(number), GrpcBuild.PhaseEnum(phase), pull);
    var s := SetPhase(env, w, phase, pull);
    GrpcBuild.NumberSurvives(number);
    assert Reports(j, number, e, GrpcBuild.PhaseEnum(phase), pull);
    hide ToInt32;
    GrpcBuild.SetPhaseAdds(env, w.link, phase, pull);
    PhaseAnswer(env, w, phase, pull, number);
    hide PhaseFailure;
    SetPhaseKeeps(env, w, phase, pull);
    KeepsSound(env, w, s.w);
    PointSnoc(env, j, t, e);
    FollowsSnoc(env, j, t, e);
  }

  lemma OnLookup(env: Env, j: Task, w: World, k: Work, imageID: string, most: nat)
    requires On(env, j, w, AskForTag(k, imageID), most)
    ensures var s := Lift(w, GrpcBuild.FindTagResult(env, w.link, k.image, k.tag, imageID));
            && !s.out.Halted?
            && On(env, j, s.w, AfterLookup(j, k, s.out), most)
  {
    hide Sound, Follows, PointAt;
    var p, e, t := AskForTag(k, imageID), CachedTagReq(j.token, k.image, k.tag, imageID), w.link.trace;
    assert Asks(j, PhaseCount(t) + 1, p, e);
    assert NextPoint(env, j, w, p, e) ==
           match env.cachedTag(|t|)
           case Ok(tag) => if j.args.pullToken != "" && tag != "" then ReportPriming(k, tag) else ReportBuilding(k)
           case Err(_) => ReportBuilding(k);
    hide Next, Asks;
    var s := Lift(w, GrpcBuild.FindTagResult(env, w.link, k.image, k.tag, imageID));
    FindTagKeeps(env, w, k.image, k.tag, imageID);
    KeepsSound(env, w, s.w);
    assert s.w.link.trace == t + [e];
    PointSnoc(env, j, t, e);
    FollowsSnoc(env, j, t, e);
  }

  /** Only a tag that is not empty is pulled, and only with a token to pull with. */
  function AfterLookup(j: Task, k: Work, out: Outcome<string>): Point {
    if out.Returned? && j.args.pullToken != "" && out.value != "" then ReportPriming(k, out.value) else ReportBuilding(k)
  }

  /** One streaming request, with the stream error handed out after it. */
  lemma OnRequest(env: Env, j: Task, w: World, p: Point, most: nat, e: Event)
    requires On(env, j, w, p, most) && Asks(j, PhaseCount(w.link.trace) + 1, p, e) && Streams(e)
    ensures var r := RequestResult(env, w, e);
            var failure := StreamFailure(env, w.link.trace + [e], |w.link.trace|);
            && Follows(env, j, r.w.link.trace)
            && (!r.out.Halted? ==>
                  && On(env, j, ForgetError(r.w), NextPoint(env, j, w, p, e), most)
                  && (failure.None? <==> r.out.Returned? && r.w.writer.err.None?)
                  && (r.out.Failed? ==> failure.Some? && r.out.error == Plain(failure.value))
                  && (r.out.Returned? && r.w.writer.err.Some? ==> failure == Some(r.w.writer.err.value.error)))
  {
    hide Sound, SoundEnd, Next, Asks, Follows, PointAt, RequestResult, NewlyCompleted, LastError, PiecesOf, Control, OnlyLogs;
    var t, r := w.link.trace, RequestResult(env, w, e);
    RequestKeeps(env, w, e);
    RequestReply(env, w, e);
    PointSnoc(env, j, t, e);
    FollowsSnoc(env, j, t, e);
    LogsStay(env, j, t + [e], r.w.link.trace);
    if !r.out.Halted? {
      SyncedOf(env, w);
      NewlyCompletedIs(env, w, e, t + [e]);
      ForgetKeeps(env, r.w);
      RequestKeepsCount(env, w, e);
    }
  }

  lemma RequestKeepsCount(env: Env, w: World, e: Event)
    requires Sound(env, w) && Streams(e) && !RequestResult(env, w, e).out.Halted?
    ensures RequestResult(env, w, e).w.link.phaseNum == w.link.phaseNum
    ensures Sound(env, RequestResult(env, w, e).w) && Sound(env, ForgetError(RequestResult(env, w, e).w))
  {
    hide SoundEnd, RequestResult, LastError, PiecesOf, OnlyLogs, LogEntries, Entries, ChunksOf, Undisturbed, Numbered, Sends;
    RequestKeeps(env, w, e);
    var r := RequestResult(env, w, e);
    CountOfControl(w.link.trace);
    CountOfControl(r.w.link.trace);
    ControlSnocCount(Control(w.link.trace), e);
  }

  lemma {:induction false} CountOfControl(t: seq<Event>)
    ensures PhaseCount(Control(t)) == PhaseCount(t)
    decreases |t|
  {
    if t != [] {
      var n := |t| - 1;
      CountOfControl(t[..n]);
      if !t[n].LogReq? {
        ControlSnocCount(Control(t[..n]), t[n]);
      } else {
        assert Control(t) == Control(t[..n]);
      }
    }
  }

  lemma ControlSnocCount(t: seq<Event>, e: Event)
    ensures PhaseCount(t + [e]) == PhaseCount(t) + if e.PhaseReq? then 1 else 0
  {
    assert (t + [e])[..|t|] == t;
  }

  ghost predicate AsksToTry(j: Task, k: Work, goal: Goal, e: Event) {
    forall number: nat, failures: nat :: Asks(j, number, Try(k, goal, failures), e)
  }

  lemma {:induction false} OnRetry(env: Env, j: Task, w: World, k: Work, goal: Goal, e: Event, i: nat, most: nat)
    requires i < 3 && On(env, j, w, Try(k, goal, i), most) && Streams(e)
    requires AsksToTry(j, k, goal, e)
    ensures var r := RetryFrom(env, w, e, i);
            && Follows(env, j, r.w.link.trace)
            && (r.out.Returned? ==> On(env, j, r.w, Succeeded(j, k, goal), most))
            && (r.out.Failed? ==> r.out.error.Plain? && On(env, j, r.w, GaveUp(k, goal, r.out.error.message), most))
    decreases 3 - i
  {
    hide Clean, Asks, Follows, PointAt, RequestResult, StreamFailure, Succeeded, GaveUp;
    var p := Try(k, goal, i);
    assert ForgetError(w) == w by { NoError(env, w); }
    OnRequest(env, j, w, p, most, e);
    var r := RequestResult(env, w, e);
    if !r.out.Halted? {
      var w1 := ForgetError(r.w);
      var failure := StreamFailure(env, w.link.trace + [e], |w.link.trace|);
      if failure.Some? && i < 2 {
        OnRetry(env, j, w1, k, goal, e, i + 1, most);
      }
    }
  }

  lemma NoError(env: Env, w: World)
    requires Clean(env, w)
    ensures w.writer.err == None && ForgetError(w) == w
  {
    hide Sound;
  }

  lemma OnFollows(env: Env, j: Task, w: World, p: Point, most: nat)
    requires On(env, j, w, p, most)
    ensures Follows(env, j, w.link.trace) && On(env, j, w, p, most + 1)
  {
    hide Clean, Follows, PointAt;
  }

  // ---------------------------------------------------------------- the stages

  function WorkOf(b: Builder): Work {
    Work(b.buildpackDir, b.metadata.baseImage, b.metadata.baseImageTag, b.cacheTag)
  }

  /** A stage that leads from its first point to `next`, or to the end with its own error. */
  ghost predicate Leads<T(!new)>(env: Env, j: Task, w: World, out: Outcome<T>, next: Point, most: nat) {
    && Follows(env, j, w.link.trace)
    && (out.Returned? ==> On(env, j, w, next, most))
    && (out.Failed? ==> PointAt(env, j, w.link.trace) == Over(Failed(out.error)))
  }

  lemma LeadsTo<T(!new)>(env: Env, j: Task, w: World, out: Outcome<T>, next: Point, most: nat)
    requires !out.Halted? && On(env, j, w, if out.Failed? then Over(Failed(out.error)) else next, most)
    ensures Leads(env, j, w, out, next, most)
  {
    hide Clean, Follows, PointAt;
  }

  lemma UnpackReports(env: Env, j: Task)
    ensures IsReport(env, j, ReportUnpacking, UNPACKING, NO_PULL, true, Download)
  {
  }

  lemma DownloadStep(env: Env, j: Task, w: World, most: nat)
    requires On(env, j, w, Download, most)
    ensures var d := env.download(|w.link.trace|);
            On(env, j, Emit(w, DownloadReq), if d.Ok? then Parse(d.value) else Over(Failed(Plain(d.message))), most)
  {
    hide On, StreamFailure, PhaseFailure;
    OnEmit(env, j, w, Download, most, DownloadReq);
  }

  lemma ParseStep(env: Env, j: Task, w: World, dir: string, most: nat)
    requires On(env, j, w, Parse(dir), most)
    ensures var m := env.parse(|w.link.trace|);
            On(env, j, Emit(w, ParseReq(dir, j.args.dockerfilePath)),
               if m.Ok? then ReportPulling(Work(dir, m.value.baseImage, m.value.baseImageTag, ""))
               else Over(Failed(Plain(m.message))), most)
  {
    hide On, StreamFailure, PhaseFailure;
    OnEmit(env, j, w, Parse(dir), most, ParseReq(dir, j.args.dockerfilePath));
  }

  lemma UnpackLeads(env: Env, j: Task, b: Builder)
    requires On(env, j, b.w, ReportUnpacking, 0) && b.cacheTag == ""
    ensures var r := UnpackResult(env, b, j.args);
            Leads(env, j, r.b.w, r.out, ReportPulling(WorkOf(r.b)), 1) && !r.out.Halted? && r.b.cacheTag == ""
  {
    hide On, SetPhase, IsReport, Leads;
    UnpackReports(env, j);
    OnPhase(env, j, b.w, ReportUnpacking, 0, Unpacking, NO_PULL, true, Download);
    var s, r := SetPhase(env, b.w, Unpacking, NO_PULL), UnpackResult(env, b, j.args);
    if s.out.Returned? {
      DownloadStep(env, j, s.w, 1);
      var d := env.download(|s.w.link.trace|);
      if d.Ok? {
        ParseStep(env, j, Emit(s.w, DownloadReq), d.value, 1);
      }
    }
    LeadsTo(env, j, r.b.w, r.out, ReportPulling(WorkOf(r.b)), 1);
  }

  lemma PullReports(env: Env, j: Task, k: Work)
    ensures IsReport(env, j, ReportPulling(k), PULLING,
                     PullMetadata(j.args.registry, k.image, k.tag, j.args.baseImage.username), true, StartPull(k))
  {
  }

  lemma PullAsks(j: Task, m: Metadata, k: Work)
    requires k.image == m.baseImage && k.tag == m.baseImageTag
    ensures Streams(PullBaseEvent(j.args, m)) && AsksToTry(j, k, PullBase, PullBaseEvent(j.args, m))
  {
  }

  lemma PullLeads(env: Env, j: Task, b: Builder)
    requires On(env, j, b.w, ReportPulling(WorkOf(b)), 1)
    ensures var r := PullResult(env, b, j.args);
            Leads(env, j, r.b.w, r.out, ReportChecking(WorkOf(b)), 2) && r.b == b.(w := r.b.w)
  {
    hide On, SetPhase, IsReport, Leads, RetryFrom, PullBaseEvent, AsksToTry;
    var k, args, r := WorkOf(b), j.args, PullResult(env, b, j.args);
    PullReports(env, j, k);
    OnPhase(env, j, b.w, ReportPulling(k), 1, Pulling, PullMetadataOf(args, b.metadata), true, StartPull(k));
    var s := SetPhase(env, b.w, Pulling, PullMetadataOf(args, b.metadata));
    if s.out.Returned? && b.metadata.baseImage != SCRATCH_IMAGE_NAME {
      PullAsks(j, b.metadata, k);
      OnRetry(env, j, s.w, k, PullBase, PullBaseEvent(args, b.metadata), 0, 2);
      if r.out.Halted? {
        HaltedLeads(env, j, r.b.w, r.out, ReportChecking(k), 2);
      } else {
        LeadsTo(env, j, r.b.w, r.out, ReportChecking(k), 2);
      }
    } else {
      LeadsTo(env, j, r.b.w, r.out, ReportChecking(k), 2);
    }
  }

  lemma HaltedLeads<T(!new)>(env: Env, j: Task, w: World, out: Outcome<T>, next: Point, most: nat)
    requires out.Halted? && Follows(env, j, w.link.trace)
    ensures Leads(env, j, w, out, next, most)
  {
    hide Follows;
  }

  // ---------------------------------------------------------------- the cache stage

  lemma CheckReports(env: Env, j: Task, k: Work)
    ensures IsReport(env, j, ReportChecking(k), PULLING, NO_PULL, false, StartLookup(k))
  {
    hide StreamFailure, PhaseFailure, StartLookup;
  }

  lemma PrimeReports(env: Env, j: Task, k: Work, candidate: string)
    ensures IsReport(env, j, ReportPriming(k, candidate), PULLING, NO_PULL, false, Try(k, PullCached(candidate), 0))
  {
    hide StreamFailure, PhaseFailure;
  }

  lemma InspectStep(env: Env, j: Task, w: World, k: Work, most: nat)
    requires On(env, j, w, InspectBase(k), most)
    ensures var image := env.inspect(|w.link.trace|);
            On(env, j, Emit(w, InspectReq(k.image + ":" + k.tag)),
               if image.Ok? then AskForTag(k, image.value.id) else ReportBuilding(k), most)
  {
    hide On, StreamFailure, PhaseFailure;
    OnEmit(env, j, w, InspectBase(k), most, InspectReq(k.image + ":" + k.tag));
  }

  lemma OnNoError(env: Env, j: Task, w: World, p: Point, most: nat)
    requires On(env, j, w, p, most)
    ensures w.writer.err == None && ForgetError(w) == w
  {
    hide Sound, Follows, PointAt;
  }

  lemma FindTagLeads(env: Env, j: Task, w: World, m: Metadata, k: Work)
    requires On(env, j, w, StartLookup(k), 3) && k.image == m.baseImage && k.tag == m.baseImageTag
    ensures var r := FindCachedTagResult(env, w, m);
            !r.out.Halted? && On(env, j, r.w, AfterLookup(j, k, r.out), 3)
  {
    hide On;
    if m.baseImage == SCRATCH_IMAGE_NAME {
      OnLookup(env, j, w, k, SCRATCH_IMAGE_ID, 3);
    } else {
      InspectStep(env, j, w, k, 3);
      var w1 := Emit(w, InspectEvent(m));
      var image := env.inspect(|w.link.trace|);
      if image.Ok? {
        OnNoError(env, j, w1, AskForTag(k, image.value.id), 3);
        OnLookup(env, j, w1, k, image.value.id, 3);
      }
    }
  }

  lemma CachedAsks(j: Task, k: Work, candidate: string)
    ensures Streams(PullCacheEvent(j.args, candidate))
    ensures AsksToTry(j, k, PullCached(candidate), PullCacheEvent(j.args, candidate))
  {
  }

  lemma PrimeLeads(env: Env, j: Task, w: World, k: Work, candidate: string)
    requires On(env, j, w, ReportPriming(k, candidate), 3) && candidate != ""
    ensures var u := SetPhase(env, w, PrimingCache, NO_PULL);
            var r := PrimeCacheResult(env, u.w, j.args, candidate);
            && Follows(env, j, r.w.link.trace)
            && (r.out.Returned? ==> On(env, j, r.w, ReportBuilding(k.(cacheTag := candidate)), 4))
            && (r.out.Failed? ==> On(env, j, r.w, ReportBuilding(k), 4))
  {
    hide On, SetPhase, IsReport, RetryFrom, PullCacheEvent, AsksToTry;
    PrimeReports(env, j, k, candidate);
    OnPhase(env, j, w, ReportPriming(k, candidate), 3, PrimingCache, NO_PULL, false, Try(k, PullCached(candidate), 0));
    CachedAsks(j, k, candidate);
    OnRetry(env, j, SetPhase(env, w, PrimingCache, NO_PULL).w, k, PullCached(candidate), PullCacheEvent(j.args, candidate), 0, 4);
  }

  lemma CacheLeads(env: Env, j: Task, b: Builder)
    requires On(env, j, b.w, ReportChecking(WorkOf(b)), 2) && b.cacheTag == ""
    ensures var r := CacheResult(env, b, j.args);
            Leads(env, j, r.b.w, r.out, ReportBuilding(WorkOf(r.b)), 4)
  {
    hide On, SetPhase, IsReport, Leads, FindCachedTagResult, PrimeCacheResult;
    var k, r := WorkOf(b), CacheResult(env, b, j.args);
    CheckReports(env, j, k);
    OnPhase(env, j, b.w, ReportChecking(k), 2, CheckingCache, NO_PULL, false, StartLookup(k));
    var s := SetPhase(env, b.w, CheckingCache, NO_PULL);
    FindTagLeads(env, j, s.w, b.metadata, k);
    var f := FindCachedTagResult(env, s.w, b.metadata);
    if f.out.Returned? && j.args.pullToken != "" && f.out.value != "" {
      PrimeLeads(env, j, f.w, k, f.out.value);
    } else {
      OnFollows(env, j, f.w, ReportBuilding(k), 3);
    }
    if r.out.Halted? {
      HaltedLeads(env, j, r.b.w, r.out, ReportBuilding(k), 4);
    } else {
      LeadsTo(env, j, r.b.w, r.out, ReportBuilding(WorkOf(r.b)), 4);
    }
  }

  // ---------------------------------------------------------------- building and pushing

  lemma BuildReports(env: Env, j: Task, k: Work)
    ensures IsReport(env, j, ReportBuilding(k), BUILDING, NO_PULL, true, Build(k))
  {
    hide StreamFailure, PhaseFailure;
  }

  lemma PushReports(env: Env, j: Task, k: Work)
    ensures IsReport(env, j, ReportPushing(k), PUSHING, NO_PULL, true, NextName(j, k, 0))
  {
    hide StreamFailure, PhaseFailure, NextName;
  }

  lemma CompleteReports(env: Env, j: Task, k: Work, done: BuildMetadata)
    ensures IsReport(env, j, ReportComplete(k, done), COMPLETE, NO_PULL, true,
                     if k.cacheTag != "" then RemoveCached(k, done) else RemoveBase(k, done))
  {
    hide StreamFailure, PhaseFailure;
  }

  lemma BuildAsks(env: Env, j: Task, k: Work, number: nat)
    requires j.buildID == env.buildID
    ensures var e := BuildEvent(env, j.args, k.dir, k.cacheTag); Streams(e) && Asks(j, number, Build(k), e)
  {
  }

  lemma BuildNext(env: Env, j: Task, w: World, k: Work, e: Event)
    ensures NextPoint(env, j, w, Build(k), e) == RemoveDir(k, StreamFailure(env, w.link.trace + [e], |w.link.trace|))
  {
    hide StreamFailure;
  }

  /** The stream error does not matter for what comes next once it was handed out, and after an
      error of the runtime it stays recorded; either way the trace is the same. */
  ghost predicate OnBut(env: Env, j: Task, w: World, p: Point, most: nat) {
    On(env, j, ForgetError(w), p, most)
  }

  lemma ExecuteLeads(env: Env, j: Task, w: World, k: Work)
    requires On(env, j, w, Build(k), 5) && j.buildID == env.buildID
    ensures var r := ExecuteBuildResult(env, w, j.args, k.dir, k.cacheTag);
            && Follows(env, j, r.w.link.trace)
            && (r.out.Returned? ==> r.out.value == j.buildID && On(env, j, r.w, RemoveDir(k, None), 5))
            && (r.out.Failed? ==>
                  r.out.error.BuildFailed? && OnBut(env, j, r.w, RemoveDir(k, Some(r.out.error.message)), 5))
  {
    hide On, RequestResult, BuildEvent, StreamFailure, Asks, NextPoint;
    var e := BuildEvent(env, j.args, k.dir, k.cacheTag);
    BuildAsks(env, j, k, PhaseCount(w.link.trace) + 1);
    OnRequest(env, j, w, Build(k), 5, e);
    BuildNext(env, j, w, k, e);
    assert ForgetError(ForgetError(RequestResult(env, w, e).w)) == ForgetError(RequestResult(env, w, e).w);
  }

  lemma RemoveDirStep(env: Env, j: Task, w: World, k: Work, failure: Option<string>, most: nat)
    requires On(env, j, w, RemoveDir(k, failure), most)
    ensures On(env, j, Emit(w, RemoveDirReq(k.dir)),
               if failure.None? then ReportPushing(k) else Over(Failed(BuildFailed(failure.value))), most)
  {
    hide On, StreamFailure, PhaseFailure;
    OnEmit(env, j, w, RemoveDir(k, failure), most, RemoveDirReq(k.dir));
  }

  lemma BuildLeads(env: Env, j: Task, b: Builder)
    requires On(env, j, b.w, ReportBuilding(WorkOf(b)), 4) && j.buildID == env.buildID
    ensures var r := BuildResult(env, b, j.args);
            && Leads(env, j, r.b.w, r.out, ReportPushing(WorkOf(b)), 5)
            && r.b == b.(w := r.b.w, buildID := r.b.buildID)
            && (r.out.Returned? ==> r.b.buildID == j.buildID)
  {
    hide On, SetPhase, IsReport, Leads, ExecuteBuildResult;
    var k, r := WorkOf(b), BuildResult(env, b, j.args);
    BuildReports(env, j, k);
    OnPhase(env, j, b.w, ReportBuilding(k), 4, Building, NO_PULL, true, Build(k));
    var s := SetPhase(env, b.w, Building, NO_PULL);
    if s.out.Returned? {
      ExecuteLeads(env, j, s.w, k);
      var x := ExecuteBuildResult(env, s.w, j.args, k.dir, k.cacheTag);
      if x.out.Halted? {
        HaltedLeads(env, j, r.b.w, r.out, ReportPushing(k), 5);
      } else if x.out.Returned? {
        RemoveDirStep(env, j, x.w, k, None, 5);
        LeadsTo(env, j, r.b.w, r.out, ReportPushing(k), 5);
      } else {
        RemoveDirStep(env, j, ForgetError(x.w), k, Some(x.out.error.message), 5);
        LeadsOver(env, j, r.b.w, r.out, ReportPushing(k), 5);
      }
    } else {
      LeadsTo(env, j, r.b.w, r.out, ReportPushing(k), 5);
    }
  }

  lemma LeadsOver<T(!new)>(env: Env, j: Task, w: World, out: Outcome<T>, next: Point, most: nat)
    requires out.Failed? && OnBut(env, j, w, Over(Failed(out.error)), most)
    ensures Leads(env, j, w, out, next, most)
  {
    hide Clean, Follows, PointAt;
  }

  lemma TagStep(env: Env, j: Task, w: World, k: Work, i: nat, most: nat)
    requires i < |j.args.tagNames| && On(env, j, w, TagName(k, i), most)
    ensures var e, err := TagReq(j.buildID, j.Repository(), j.args.tagNames[i]), env.container(|w.link.trace|).err;
            On(env, j, Emit(w, e), if err.None? then Try(k, PushName(i), 0) else Over(Failed(TagError(err.value))), most)
  {
    hide On, StreamFailure, PhaseFailure;
    OnEmit(env, j, w, TagName(k, i), most, TagReq(j.buildID, j.Repository(), j.args.tagNames[i]));
  }

  lemma PushAsks(j: Task, k: Work, i: nat)
    requires i < |j.args.tagNames|
    ensures var e := PushEvent(j.args, j.args.tagNames[i]); Streams(e) && AsksToTry(j, k, PushName(i), e)
  {
  }

  lemma TagIs(j: Task, name: string)
    ensures TagEvent(j.args, j.buildID, name) == TagReq(j.buildID, j.Repository(), name)
  {
  }

  lemma PushOneLeads(env: Env, j: Task, w: World, k: Work, i: nat)
    requires i < |j.args.tagNames| && On(env, j, w, TagName(k, i), 6)
    ensures var r := PushOneResult(env, w, j.args, j.buildID, j.args.tagNames[i]);
            Leads(env, j, r.w, r.out, NextName(j, k, i + 1), 6)
  {
    hide On, Leads, RetryFrom, PushEvent, TagEvent, AsksToTry;
    var name := j.args.tagNames[i];
    var r, next := PushOneResult(env, w, j.args, j.buildID, name), NextName(j, k, i + 1);
    TagIs(j, name);
    TagStep(env, j, w, k, i, 6);
    if env.container(|w.link.trace|).err.None? {
      var w1 := Emit(w, TagEvent(j.args, j.buildID, name));
      OnNoError(env, j, w1, Try(k, PushName(i), 0), 6);
      PushAsks(j, k, i);
      OnRetry(env, j, w1, k, PushName(i), PushEvent(j.args, name), 0, 6);
    } else {
      OnNoError(env, j, Emit(w, TagEvent(j.args, j.buildID, name)), Over(Failed(r.out.error)), 6);
    }
    if r.out.Halted? {
      HaltedLeads(env, j, r.w, r.out, next, 6);
    } else {
      LeadsTo(env, j, r.w, r.out, next, 6);
    }
  }

  lemma {:induction false} PushLoopLeads(env: Env, j: Task, w: World, k: Work, i: nat)
    requires i <= |j.args.tagNames| && On(env, j, w, NextName(j, k, i), 6)
    ensures var r := PushFrom(env, w, j.args, j.buildID, i);
            Leads(env, j, r.w, r.out, InspectBuilt(k), 6)
    decreases |j.args.tagNames| - i
  {
    hide On, Leads, PushOneResult;
    if i == |j.args.tagNames| {
      LeadsTo(env, j, w, PushFrom(env, w, j.args, j.buildID, i).out, InspectBuilt(k), 6);
    } else {
      PushOneLeads(env, j, w, k, i);
      var r := PushOneResult(env, w, j.args, j.buildID, j.args.tagNames[i]);
      if r.out.Returned? {
        LeadsOn(env, j, r.w, r.out, NextName(j, k, i + 1), 6);
        PushLoopLeads(env, j, r.w, k, i + 1);
      } else {
        LeadsElse(env, j, r.w, r.out, NextName(j, k, i + 1), InspectBuilt(k), 6);
      }
    }
  }

  lemma LeadsOn<T(!new)>(env: Env, j: Task, w: World, out: Outcome<T>, next: Point, most: nat)
    requires Leads(env, j, w, out, next, most) && out.Returned?
    ensures On(env, j, w, next, most)
  {
    hide On;
  }

  /** A stage that did not return leads nowhere, whatever would have come next. */
  lemma LeadsElse<T(!new)>(env: Env, j: Task, w: World, out: Outcome<T>, next: Point, other: Point, most: nat)
    requires Leads(env, j, w, out, next, most) && !out.Returned?
    ensures Leads(env, j, w, out, other, most)
  {
    hide On;
  }

  lemma LeadsSame<T(!new), U(!new)>(env: Env, j: Task, w: World, out: Outcome<T>, same: Outcome<U>, next: Point, other: Point, most: nat, more: nat)
    requires Leads(env, j, w, out, next, most) && !out.Returned? && same == Stop(out)
    ensures Leads(env, j, w, same, other, more)
  {
    hide On, PointAt, Follows;
  }

  lemma InspectBuiltStep(env: Env, j: Task, w: World, k: Work, most: nat)
    requires On(env, j, w, InspectBuilt(k), most)
    ensures var image := env.inspect(|w.link.trace|);
            On(env, j, Emit(w, InspectReq(j.buildID)),
               if image.Ok? then StopBeating(k, BuildMetadata(image.value.id, image.value.digests))
               else Over(Failed(TagError(image.message))), most)
  {
    hide On, StreamFailure, PhaseFailure;
    OnEmit(env, j, w, InspectBuilt(k), most, InspectReq(j.buildID));
  }

  lemma PushLeads(env: Env, j: Task, b: Builder)
    requires On(env, j, b.w, ReportPushing(WorkOf(b)), 5) && b.buildID == j.buildID
    ensures var r := PushResult(env, b, j.args);
            && Leads(env, j, r.b.w, r.out, if r.out.Returned? then StopBeating(WorkOf(b), r.out.value) else Over(Halted), 6)
            && r.b == b.(w := r.b.w)
  {
    hide On, SetPhase, IsReport, Leads, PushFrom;
    var k, r := WorkOf(b), PushResult(env, b, j.args);
    PushReports(env, j, k);
    OnPhase(env, j, b.w, ReportPushing(k), 5, Pushing, NO_PULL, true, NextName(j, k, 0));
    var s := SetPhase(env, b.w, Pushing, NO_PULL);
    if s.out.Returned? {
      PushLoopLeads(env, j, s.w, k, 0);
      var x := PushFrom(env, s.w, j.args, j.buildID, 0);
      if x.out.Returned? {
        LeadsOn(env, j, x.w, x.out, InspectBuilt(k), 6);
        InspectBuiltStep(env, j, x.w, k, 6);
        var image := env.inspect(|x.w.link.trace|);
        OnNoError(env, j, Emit(x.w, InspectReq(j.buildID)), if image.Ok? then StopBeating(k, BuildMetadata(image.value.id, image.value.digests))
               else Over(Failed(TagError(image.message))), 6);
        LeadsTo(env, j, r.b.w, r.out, if r.out.Returned? then StopBeating(k, r.out.value) else Over(Halted), 6);
      } else {
        LeadsSame(env, j, x.w, x.out, r.out, InspectBuilt(k), Over(Halted), 6, 6);
      }
    } else {
      LeadsTo(env, j, r.b.w, r.out, Over(Halted), 6);
    }
  }

  // ---------------------------------------------------------------- completing

  lemma StopStep(env: Env, j: Task, w: World, k: Work, done: BuildMetadata, most: nat)
    requires On(env, j, w, StopBeating(k, done), most)
    ensures On(env, j, Emit(w, StopHeartbeat), ReportComplete(k, done), most)
  {
    hide On, StreamFailure, PhaseFailure;
    OnEmit(env, j, w, StopBeating(k, done), most, StopHeartbeat);
  }

  lemma RemoveCachedStep(env: Env, j: Task, w: World, k: Work, done: BuildMetadata, most: nat)
    requires On(env, j, w, RemoveCached(k, done), most)
    ensures On(env, j, Emit(w, RemoveReq(j.Repository() + ":" + k.cacheTag)), RemoveBase(k, done), most)
  {
    hide On, StreamFailure, PhaseFailure;
    OnEmit(env, j, w, RemoveCached(k, done), most, RemoveReq(j.Repository() + ":" + k.cacheTag));
  }

  lemma RemoveBaseStep(env: Env, j: Task, w: World, k: Work, done: BuildMetadata, most: nat)
    requires On(env, j, w, RemoveBase(k, done), most)
    ensures var e := RemoveReq(if k.tag != "" then k.image + ":" + k.tag else k.image);
            On(env, j, Emit(w, e), RemoveBuilt(done), most)
  {
    hide On, StreamFailure, PhaseFailure;
    OnEmit(env, j, w, RemoveBase(k, done), most, RemoveReq(if k.tag != "" then k.image + ":" + k.tag else k.image));
  }

  lemma LastSteps(env: Env, j: Task, w: World, done: BuildMetadata, most: nat)
    requires On(env, j, w, RemoveBuilt(done), most)
    ensures On(env, j, Emit(Emit(w, RemoveReq(done.imageID)), PruneReq), Over(Returned(done)), most)
  {
    hide On, StreamFailure, PhaseFailure;
    OnEmit(env, j, w, RemoveBuilt(done), most, RemoveReq(done.imageID));
    OnEmit(env, j, Emit(w, RemoveReq(done.imageID)), Prune(done), most, PruneReq);
  }

  lemma RemovalsAre(j: Task, b: Builder)
    ensures CacheImage(j.args, b.cacheTag) == j.Repository() + ":" + WorkOf(b).cacheTag
    ensures BaseImage(b.metadata) == if WorkOf(b).tag != "" then WorkOf(b).image + ":" + WorkOf(b).tag else WorkOf(b).image
  {
  }

  lemma CleanupLeads(env: Env, j: Task, b: Builder, done: BuildMetadata)
    requires On(env, j, b.w, if b.cacheTag != "" then RemoveCached(WorkOf(b), done) else RemoveBase(WorkOf(b), done), 7)
    ensures On(env, j, CleanupResult(env, b, j.args, done.imageID).b.w, Over(Returned(done)), 7)
  {
    hide On, CacheImage, BaseImage;
    var k := WorkOf(b);
    RemovalsAre(j, b);
    var w1 := if b.cacheTag != "" then Emit(b.w, RemoveReq(CacheImage(j.args, b.cacheTag))) else b.w;
    if b.cacheTag != "" {
      RemoveCachedStep(env, j, b.w, k, done, 7);
    }
    RemoveBaseStep(env, j, w1, k, done, 7);
    LastSteps(env, j, Emit(w1, RemoveReq(BaseImage(b.metadata))), done, 7);
  }

  /** A run from some stage on: the requests follow the protocol, and unless the process ends the
      protocol is over, with the outcome of the run. */
  ghost predicate EndsRightly(env: Env, j: Task, r: Staged<BuildMetadata>) {
    && Follows(env, j, r.b.w.link.trace)
    && (!r.out.Halted? ==> PointAt(env, j, r.b.w.link.trace) == Over(r.out))
  }

  lemma CompleteEnds(env: Env, j: Task, b: Builder, done: BuildMetadata)
    requires On(env, j, b.w, StopBeating(WorkOf(b), done), 6)
    ensures EndsRightly(env, j, CompleteResult(env, b, j.args, done))
  {
    hide On, SetPhase, IsReport, CleanupResult, Follows, PointAt;
    var k := WorkOf(b);
    var w1, next := Emit(b.w, StopHeartbeat), if b.cacheTag != "" then RemoveCached(k, done) else RemoveBase(k, done);
    StopStep(env, j, b.w, k, done, 6);
    CompleteReports(env, j, k, done);
    OnPhase(env, j, w1, ReportComplete(k, done), 6, Phase.Complete, NO_PULL, true, next);
    var s := SetPhase(env, w1, Phase.Complete, NO_PULL);
    if s.out.Returned? {
      CleanupLeads(env, j, b.(w := s.w), done);
      OnMeans(env, j, CleanupResult(env, b.(w := s.w), j.args, done.imageID).b.w, Over(Returned(done)), 7);
    } else {
      OnMeans(env, j, s.w, Over(Failed(s.out.error)), 7);
    }
  }

  lemma OnMeans(env: Env, j: Task, w: World, p: Point, most: nat)
    requires On(env, j, w, p, most)
    ensures Follows(env, j, w.link.trace) && PointAt(env, j, w.link.trace) == p
  {
    hide Clean, Follows, PointAt;
  }

  /** A stage that did not return ends the run. */
  lemma StageEnds<T(!new)>(env: Env, j: Task, b: Builder, out: Outcome<T>, next: Point, most: nat)
    requires Leads(env, j, b.w, out, next, most) && !out.Returned?
    ensures EndsRightly(env, j, Staged(b, Stop(out)))
  {
    hide On, Follows, PointAt;
  }

  lemma FinishEnds(env: Env, j: Task, b: Builder)
    requires On(env, j, b.w, ReportBuilding(WorkOf(b)), 4) && j.buildID == env.buildID
    ensures EndsRightly(env, j, FinishResult(env, b, j.args))
  {
    hide On, Leads, BuildResult, PushResult, CompleteResult, EndsRightly;
    BuildLeads(env, j, b);
    var built := BuildResult(env, b, j.args);
    if !built.out.Returned? {
      StageEnds(env, j, built.b, built.out, ReportPushing(WorkOf(b)), 5);
    } else {
      LeadsOn(env, j, built.b.w, built.out, ReportPushing(WorkOf(b)), 5);
      PushLeads(env, j, built.b);
      var pushed := PushResult(env, built.b, j.args);
      if !pushed.out.Returned? {
        StageEnds(env, j, pushed.b, pushed.out, Over(Halted), 6);
        assert Stop<BuildMetadata, BuildMetadata>(pushed.out) == pushed.out;
      } else {
        LeadsOn(env, j, pushed.b.w, pushed.out, StopBeating(WorkOf(b), pushed.out.value), 6);
        CompleteEnds(env, j, pushed.b, pushed.out.value);
      }
    }
  }

  lemma FromCacheEnds(env: Env, j: Task, b: Builder)
    requires On(env, j, b.w, ReportChecking(WorkOf(b)), 2) && b.cacheTag == "" && j.buildID == env.buildID
    ensures EndsRightly(env, j, FromCacheResult(env, b, j.args))
  {
    hide On, Leads, CacheResult, FinishResult, EndsRightly;
    CacheLeads(env, j, b);
    var cached := CacheResult(env, b, j.args);
    var next := ReportBuilding(WorkOf(cached.b));
    if cached.out.Returned? {
      LeadsOn(env, j, cached.b.w, cached.out, next, 4);
      FinishEnds(env, j, cached.b);
    } else {
      StageEnds(env, j, cached.b, cached.out, next, 4);
    }
  }

  lemma FromPullEnds(env: Env, j: Task, b: Builder)
    requires On(env, j, b.w, ReportPulling(WorkOf(b)), 1) && b.cacheTag == "" && j.buildID == env.buildID
    ensures EndsRightly(env, j, FromPullResult(env, b, j.args))
  {
    hide On, Leads, PullResult, FromCacheResult, EndsRightly;
    PullLeads(env, j, b);
    var pulled := PullResult(env, b, j.args);
    var next := ReportChecking(WorkOf(b));
    if pulled.out.Returned? {
      LeadsOn(env, j, pulled.b.w, pulled.out, next, 2);
      FromCacheEnds(env, j, pulled.b);
    } else {
      StageEnds(env, j, pulled.b, pulled.out, next, 2);
    }
  }

  lemma StartsOn(env: Env, args: BuildArgs, l: Link)
    requires Registered(l)
    ensures On(env, Task(l.jobToken, args, env.buildID), NewBuilder(l).w, ReportUnpacking, 0)
  {
    hide Clean;
    NewBuilderIsClean(env, l);
  }

  /** Every run makes exactly the requests that the protocol asks for, in its order and with its
      fields, for every way the outside world can answer. Unless the process ends in the middle of
      a stream the run comes to the end of the protocol, with the outcome that the protocol says. */
  lemma RunFollowsProtocol(env: Env, args: BuildArgs, l: Link)
    requires Registered(l)
    ensures var r, j := RunResult(env, NewBuilder(l), args), Task(l.jobToken, args, env.buildID);
            var t := r.b.w.link.trace;
            && Follows(env, j, t)
            && (!r.out.Halted? ==> PointAt(env, j, t) == Over(r.out))
  {
    hide On, Leads, UnpackResult, FromPullResult, Follows, PointAt;
    var b, j := NewBuilder(l), Task(l.jobToken, args, env.buildID);
    StartsOn(env, args, l);
    UnpackLeads(env, j, b);
    var unpacked := UnpackResult(env, b, args);
    var next := ReportPulling(WorkOf(unpacked.b));
    if unpacked.out.Returned? {
      LeadsOn(env, j, unpacked.b.w, unpacked.out, next, 1);
      FromPullEnds(env, j, unpacked.b);
    } else {
      StageEnds(env, j, unpacked.b, unpacked.out, next, 1);
    }
  }
}
