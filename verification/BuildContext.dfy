/** The stages of a build: what each does to the builder, to the build manager and to the
    container runtime. */
module BuildContext {
  import opened Outside
  import opened DockerLogWriter
  import GrpcBuild

  const SCRATCH_IMAGE_NAME := "scratch"
  const SCRATCH_IMAGE_ID := "511136ea3c5a64f264b78b5433614aec563103b4d4702f3ba7d4d2698e22c158"

  const MAX_ATTEMPTS := 3

  /** The fields of a build context that the stages assign, and the world they work in. */
  datatype Builder = Builder(w: World, buildpackDir: string, metadata: Metadata, buildID: string, cacheTag: string)

  datatype Staged<+T> = Staged(b: Builder, out: Outcome<T>)

  function SetPhase(env: Env, w: World, phase: Phase, pull: PullMetadata): Did<()> {
    Lift(w, GrpcBuild.SetPhaseResult(env, w.link, phase, pull))
  }

  // ---------------------------------------------------------------- one request, and retries

  /** A container request whose output goes to the log writer. */
  function RequestResult(env: Env, w: World, e: Event): Did<()> {
    var reply := env.container(|w.link.trace|);
    var p := StreamResult(env, Emit(w, e), reply.chunks);
    if p.halted then Did(p.w, Halted)
    else if reply.err.Some? then Did(p.w, Failed(Plain(reply.err.value)))
    else Did(p.w, Returned(()))
  }

  /** The attempts from number `i` on, counting from 0. */
  function RetryFrom(env: Env, w: World, e: Event, i: nat): Did<()>
    requires i < MAX_ATTEMPTS
    decreases MAX_ATTEMPTS - i
  {
    var r := RequestResult(env, ForgetError(w), e);
    if r.out.Halted? then r
    else
      var streamError := r.w.writer.err;
      var w1 := ForgetError(r.w);
      if r.out.Returned? && streamError.None? then Did(w1, Returned(()))
      else if i == MAX_ATTEMPTS - 1 then
        Did(w1, if r.out.Failed? then r.out else Failed(Plain(streamError.value.error)))
      else RetryFrom(env, w1, e, i + 1)
  }

  function RetryResult(env: Env, w: World, e: Event): Did<()> {
    RetryFrom(env, w, e, 0)
  }

  // ---------------------------------------------------------------- the requests of a build

  function PullBaseEvent(args: BuildArgs, m: Metadata): Event {
    var usesAuth := args.baseImage.username != "" && args.registry <= m.baseImage;
    PullReq(args.registry, m.baseImage, m.baseImageTag, if usesAuth then args.baseImage else Auth("", ""))
  }

  function PullCacheEvent(args: BuildArgs, tag: string): Event {
    PullReq(args.registry, args.FullRepoName(), tag, Auth("$token", args.pullToken))
  }

  function TagEvent(args: BuildArgs, imageID: string, tag: string): Event {
    TagReq(imageID, args.FullRepoName(), tag)
  }

  function PushEvent(args: BuildArgs, tag: string): Event {
    PushReq(args.registry, args.FullRepoName(), tag, Auth("$token", args.pushToken))
  }

  function CacheFrom(args: BuildArgs, cacheTag: string): seq<string> {
    if cacheTag == "" then [] else [args.FullRepoName() + ":" + cacheTag]
  }

  function BuildEvent(env: Env, args: BuildArgs, dir: string, cacheTag: string): Event {
    BuildReq(env.buildID, CacheFrom(args, cacheTag), args.dockerfilePath, dir)
  }

  // ---------------------------------------------------------------- the steps inside stages

  function PullBaseResult(env: Env, w: World, args: BuildArgs, m: Metadata): Did<()> {
    if m.baseImage == SCRATCH_IMAGE_NAME then Did(w, Returned(()))
    else
      var r := RetryResult(env, w, PullBaseEvent(args, m));
      if r.out.Failed? then Did(r.w, Failed(PullError(Message(r.out.error)))) else r
  }

  function PrimeCacheResult(env: Env, w: World, args: BuildArgs, cachedTag: string): Did<()> {
    if cachedTag == "" then Did(w, Returned(()))
    else
      var r := RetryResult(env, w, PullCacheEvent(args, cachedTag));
      if r.out.Failed? then Did(r.w, Failed(CannotPullForCache(Message(r.out.error)))) else r
  }

  function InspectEvent(m: Metadata): Event {
    InspectReq(m.baseImage + ":" + m.baseImageTag)
  }

  function FindCachedTagResult(env: Env, w: World, m: Metadata): Did<string> {
    if m.baseImage == SCRATCH_IMAGE_NAME then
      Lift(w, GrpcBuild.FindTagResult(env, w.link, m.baseImage, m.baseImageTag, SCRATCH_IMAGE_ID))
    else
      var w1 := Emit(w, InspectEvent(m));
      match env.inspect(|w.link.trace|)
      case Err(msg) => Did(w1, Failed(Plain(msg)))
      case Ok(image) =>
        var w2 := ForgetError(w1);
        if w1.writer.err.Some? then Did(w2, Failed(Plain(w1.writer.err.value.error)))
        else Lift(w2, GrpcBuild.FindTagResult(env, w2.link, m.baseImage, m.baseImageTag, image.id))
  }

  function ExecuteBuildResult(env: Env, w: World, args: BuildArgs, dir: string, cacheTag: string): Did<string> {
    var r := RequestResult(env, w, BuildEvent(env, args, dir, cacheTag));
    match r.out
    case Halted => Did(r.w, Halted)
    case Failed(e) => Did(r.w, Failed(BuildFailed(Message(e))))
    case Returned(_) =>
      var w1 := ForgetError(r.w);
      if r.w.writer.err.Some? then Did(w1, Failed(BuildFailed(r.w.writer.err.value.error)))
      else Did(w1, Returned(env.buildID))
  }

  /** Tag the image with one name and push that name. */
  function PushOneResult(env: Env, w: World, args: BuildArgs, imageID: string, tag: string): Did<()> {
    var w1 := Emit(w, TagEvent(args, imageID, tag));
    var reply := env.container(|w.link.trace|);
    if reply.err.Some? then Did(w1, Failed(TagError(reply.err.value)))
    else
      var w2 := ForgetError(w1);
      if w1.writer.err.Some? then Did(w2, Failed(TagError(w1.writer.err.value.error)))
      else
        var r := RetryResult(env, w2, PushEvent(args, tag));
        if r.out.Failed? then Did(r.w, Failed(PushError(Message(r.out.error)))) else r
  }

  /** The push loop over the names from the i-th on. */
  function PushFrom(env: Env, w: World, args: BuildArgs, imageID: string, i: nat): Did<()>
    requires i <= |args.tagNames|
    decreases |args.tagNames| - i
  {
    if i == |args.tagNames| then Did(w, Returned(()))
    else
      var r := PushOneResult(env, w, args, imageID, args.tagNames[i]);
      if r.out.Returned? then PushFrom(env, r.w, args, imageID, i + 1) else r
  }

  function PushBuiltResult(env: Env, w: World, args: BuildArgs, imageID: string): Did<Image> {
    var r := PushFrom(env, w, args, imageID, 0);
    match r.out
    case Halted => Did(r.w, Halted)
    case Failed(e) => Did(r.w, Failed(e))
    case Returned(_) =>
      var w1 := Emit(r.w, InspectReq(imageID));
      match env.inspect(|r.w.link.trace|)
      case Err(msg) => Did(w1, Failed(TagError(msg)))
      case Ok(image) =>
        var w2 := ForgetError(w1);
        if w1.writer.err.Some? then Did(w2, Failed(TagError(w1.writer.err.value.error)))
        else Did(w2, Returned(image))
  }

  // ---------------------------------------------------------------- the stages

  function UnpackResult(env: Env, b: Builder, args: BuildArgs): Staged<()> {
    var s := SetPhase(env, b.w, Unpacking, NO_PULL);
    if !s.out.Returned? then Staged(b.(w := s.w), s.out)
    else
      var w1 := Emit(s.w, DownloadReq);
      match env.download(|s.w.link.trace|)
      case Err(m) => Staged(b.(w := w1), Failed(Plain(m)))
      case Ok(dir) =>
        var b1 := b.(w := Emit(w1, ParseReq(dir, args.dockerfilePath)), buildpackDir := dir);
        match env.parse(|w1.link.trace|)
        case Err(m) => Staged(b1, Failed(Plain(m)))
        case Ok(metadata) => Staged(b1.(metadata := metadata), Returned(()))
  }

  function PullMetadataOf(args: BuildArgs, m: Metadata): PullMetadata {
    PullMetadata(args.registry, m.baseImage, m.baseImageTag, args.baseImage.username)
  }

  function PullResult(env: Env, b: Builder, args: BuildArgs): Staged<()> {
    var s := SetPhase(env, b.w, Pulling, PullMetadataOf(args, b.metadata));
    if !s.out.Returned? then Staged(b.(w := s.w), s.out)
    else
      var r := PullBaseResult(env, s.w, args, b.metadata);
      Staged(b.(w := r.w), r.out)
  }

  /** Neither the two phase updates nor the lookup nor the pull can fail the build. */
  function CacheResult(env: Env, b: Builder, args: BuildArgs): Staged<()> {
    var s := SetPhase(env, b.w, CheckingCache, NO_PULL);
    var t := FindCachedTagResult(env, s.w, b.metadata);
    if !t.out.Returned? then Staged(b.(w := t.w), Returned(()))
    else if args.pullToken != "" && t.out.value != "" then
      var u := SetPhase(env, t.w, PrimingCache, NO_PULL);
      var r := PrimeCacheResult(env, u.w, args, t.out.value);
      if r.out.Halted? then Staged(b.(w := r.w), Halted)
      else if r.out.Failed? then Staged(b.(w := r.w), Returned(()))
      else Staged(b.(w := r.w, cacheTag := t.out.value), Returned(()))
    else Staged(b.(w := t.w), Returned(()))
  }

  /** The build directory is removed when the stage returns, with or without an error. */
  function BuildResult(env: Env, b: Builder, args: BuildArgs): Staged<()> {
    var s := SetPhase(env, b.w, Building, NO_PULL);
    if !s.out.Returned? then Staged(b.(w := s.w), s.out)
    else
      var r := ExecuteBuildResult(env, s.w, args, b.buildpackDir, b.cacheTag);
      if r.out.Halted? then Staged(b.(w := r.w), Halted)
      else
        var id := if r.out.Returned? then r.out.value else "";
        Staged(b.(w := Emit(r.w, RemoveDirReq(b.buildpackDir)), buildID := id),
               if r.out.Failed? then Failed(r.out.error) else Returned(()))
  }

  function PushResult(env: Env, b: Builder, args: BuildArgs): Staged<BuildMetadata> {
    var s := SetPhase(env, b.w, Pushing, NO_PULL);
    match s.out
    case Halted => Staged(b.(w := s.w), Halted)
    case Failed(e) => Staged(b.(w := s.w), Failed(e))
    case Returned(_) =>
      var r := PushBuiltResult(env, s.w, args, b.buildID);
      match r.out
      case Halted => Staged(b.(w := r.w), Halted)
      case Failed(e) => Staged(b.(w := r.w), Failed(e))
      case Returned(image) => Staged(b.(w := r.w), Returned(BuildMetadata(image.id, image.digests)))
  }

  function CacheImage(args: BuildArgs, cacheTag: string): string {
    args.FullRepoName() + ":" + cacheTag
  }

  function BaseImage(m: Metadata): string {
    if m.baseImageTag != "" then m.baseImage + ":" + m.baseImageTag else m.baseImage
  }

  /** Every removal is requested, whatever became of the ones before. */
  function CleanupResult(env: Env, b: Builder, args: BuildArgs, builtImageID: string): Staged<()> {
    var w1 := if b.cacheTag != "" then Emit(b.w, RemoveReq(CacheImage(args, b.cacheTag))) else b.w;
    var w2 := Emit(w1, RemoveReq(BaseImage(b.metadata)));
    var w3 := Emit(w2, RemoveReq(builtImageID));
    Staged(b.(w := Emit(w3, PruneReq)), Returned(()))
  }

  // ---------------------------------------------------------------- the whole build

  function CompleteResult(env: Env, b: Builder, args: BuildArgs, bmd: BuildMetadata): Staged<BuildMetadata> {
    var s := SetPhase(env, Emit(b.w, StopHeartbeat), Phase.Complete, NO_PULL);
    match s.out
    case Halted => Staged(b.(w := s.w), Halted)
    case Failed(e) => Staged(b.(w := s.w), Failed(e))
    case Returned(_) =>
      var c := CleanupResult(env, b.(w := s.w), args, bmd.imageID);
      Staged(c.b, Returned(bmd))
  }

  function RunResult(env: Env, b: Builder, args: BuildArgs): Staged<BuildMetadata> {
    var unpacked := UnpackResult(env, b, args);
    if unpacked.out.Returned? then FromPullResult(env, unpacked.b, args) else Staged(unpacked.b, Stop(unpacked.out))
  }

  /** The stages from Pulling on. */
  function FromPullResult(env: Env, b: Builder, args: BuildArgs): Staged<BuildMetadata> {
    var pulled := PullResult(env, b, args);
    if pulled.out.Returned? then FromCacheResult(env, pulled.b, args) else Staged(pulled.b, Stop(pulled.out))
  }

  /** The stages from CheckingCache on. */
  function FromCacheResult(env: Env, b: Builder, args: BuildArgs): Staged<BuildMetadata> {
    var cached := CacheResult(env, b, args);
    if cached.out.Returned? then FinishResult(env, cached.b, args) else Staged(cached.b, Stop(cached.out))
  }

  /** The stages from Building on. */
  function FinishResult(env: Env, b: Builder, args: BuildArgs): Staged<BuildMetadata> {
    var built := BuildResult(env, b, args);
    if !built.out.Returned? then Staged(built.b, Stop(built.out))
    else
      var pushed := PushResult(env, built.b, args);
      if !pushed.out.Returned? then pushed
      else CompleteResult(env, pushed.b, args, pushed.out.value)
  }

  /** An outcome that is not a value, passed on. */
  function Stop<T, U>(out: Outcome<T>): Outcome<U>
    requires !out.Returned?
  {
    if out.Halted? then Halted else Failed(out.error)
  }

  function NewBuilder(link: Link): Builder {
    Builder(World(link, WriterState([], None)), "", Metadata("", ""), "", "")
  }
}
