/** The builder as a program: the build context, its stages and the whole build, each method
    proved to do what `BuildContext` says. */
module BuilderProgram {
  import opened Outside
  import opened DockerLogWriter
  import opened GrpcBuild
  import opened BuildContext
  import opened Heartbeat
  import opened Protocol

  /** A container request that streams its output to `writer`. */
  method Request(manager: Manager, writer: DockerRPCWriter, e: Event) returns (out: Outcome<()>)
    requires writer.client.manager == manager
    modifies writer, writer.partialBuffer, writer.client, manager
    ensures Did(writer.Whole(), out) == RequestResult(manager.env, old(writer.Whole()), e)
  {
    var n := manager.Ask(e);
    var reply := manager.env.container(n);
    hide StreamResult;
    var halted := writer.WriteAll(reply.chunks);
    if halted {
      return Halted;
    }
    out := if reply.err.Some? then Failed(Plain(reply.err.value)) else Returned(());
  }

  /** In Go the loop is guarded by `i < 3`. The guard holds every time, because the third attempt
      always returns, so the statement after that loop is never reached. */
  method RetryDockerRequest(manager: Manager, writer: DockerRPCWriter, e: Event) returns (out: Outcome<()>)
    requires writer.client.manager == manager
    modifies writer, writer.partialBuffer, writer.client, manager
    ensures Did(writer.Whole(), out) == RetryResult(manager.env, old(writer.Whole()), e)
  {
    hide RequestResult;
    ghost var w0 := writer.Whole();
    var i: nat := 0;
    while true
      invariant i < MAX_ATTEMPTS
      invariant RetryFrom(manager.env, writer.Whole(), e, i) == RetryResult(manager.env, w0, e)
      decreases MAX_ATTEMPTS - i
    {
      writer.ResetError();
      out := Request(manager, writer, e);
      if out.Halted? {
        return;
      }
      var streamError := writer.ErrResponse();
      if out.Returned? && streamError.None? {
        return Returned(());
      }
      if i == MAX_ATTEMPTS - 1 {
        return if out.Failed? then out else Failed(Plain(streamError.value));
      }
      i := i + 1;
    }
  }

  class Context {
    const args: BuildArgs
    const client: GrpcClient
    const writer: DockerRPCWriter
    const manager: Manager
    var metadata: Metadata
    var buildpackDir: string
    var buildID: string
    var cacheTag: string

    constructor (client: GrpcClient, args: BuildArgs)
      ensures Valid() && this.client == client && this.args == args
      ensures fresh(writer) && fresh(writer.partialBuffer)
      ensures View() == NewBuilder(client.View())
    {
      this.args, this.client, manager := args, client, client.manager;
      writer := new DockerRPCWriter(client);
      metadata, buildpackDir, buildID, cacheTag := Metadata("", ""), "", "", "";
    }

    predicate Valid() {
      writer.client == client && client.manager == manager
    }

    ghost function View(): Builder
      reads this, writer, writer.partialBuffer, writer.client, writer.client.manager
    {
      Builder(writer.Whole(), buildpackDir, metadata, buildID, cacheTag)
    }

    method Unpack() returns (out: Outcome<()>)
      requires Valid()
      modifies this, client, manager
      ensures Staged(View(), out) == UnpackResult(manager.env, old(View()), args)
    {
      hide SetPhaseResult;
      out := client.SetPhase(Unpacking, NO_PULL);
      if !out.Returned? {
        return;
      }
      var n := manager.Ask(DownloadReq);
      var downloaded := manager.env.download(n);
      if downloaded.Err? {
        return Failed(Plain(downloaded.message));
      }
      buildpackDir := downloaded.value;
      n := manager.Ask(ParseReq(buildpackDir, args.dockerfilePath));
      var parsed := manager.env.parse(n);
      if parsed.Err? {
        return Failed(Plain(parsed.message));
      }
      metadata := parsed.value;
      out := Returned(());
    }

    method PullBaseImage() returns (out: Outcome<()>)
      requires Valid()
      modifies writer, writer.partialBuffer, client, manager
      ensures Did(writer.Whole(), out) == PullBaseResult(manager.env, old(writer.Whole()), args, old(metadata))
    {
      hide RetryResult;
      if metadata.baseImage == SCRATCH_IMAGE_NAME {
        return Returned(());
      }
      out := RetryDockerRequest(manager, writer, PullBaseEvent(args, metadata));
      if out.Failed? {
        out := Failed(PullError(Message(out.error)));
      }
    }

    method Pull() returns (out: Outcome<()>)
      requires Valid()
      modifies writer, writer.partialBuffer, client, manager
      ensures Staged(View(), out) == PullResult(manager.env, old(View()), args)
    {
      hide SetPhaseResult, PullBaseResult;
      out := client.SetPhase(Pulling, PullMetadataOf(args, metadata));
      if !out.Returned? {
        return;
      }
      out := PullBaseImage();
    }

    method FindCachedTag() returns (out: Outcome<string>)
      requires Valid()
      modifies writer, client, manager
      ensures Did(writer.Whole(), out) == FindCachedTagResult(manager.env, old(writer.Whole()), old(metadata))
    {
      hide FindTagResult;
      var imageID := SCRATCH_IMAGE_ID;
      if metadata.baseImage != SCRATCH_IMAGE_NAME {
        var n := manager.Ask(InspectEvent(metadata));
        var inspected := manager.env.inspect(n);
        if inspected.Err? {
          return Failed(Plain(inspected.message));
        }
        var streamError := writer.ErrResponse();
        if streamError.Some? {
          return Failed(Plain(streamError.value));
        }
        imageID := inspected.value.id;
      }
      out := client.FindMostSimilarTag(metadata.baseImage, metadata.baseImageTag, imageID);
    }

    method PrimeCache(cachedTag: string) returns (out: Outcome<()>)
      requires Valid()
      modifies writer, writer.partialBuffer, client, manager
      ensures Did(writer.Whole(), out) == PrimeCacheResult(manager.env, old(writer.Whole()), args, cachedTag)
    {
      hide RetryResult;
      if cachedTag == "" {
        return Returned(());
      }
      out := RetryDockerRequest(manager, writer, PullCacheEvent(args, cachedTag));
      if out.Failed? {
        out := Failed(CannotPullForCache(Message(out.error)));
      }
    }

    method Cache() returns (out: Outcome<()>)
      requires Valid()
      modifies this, writer, writer.partialBuffer, client, manager
      ensures Staged(View(), out) == CacheResult(manager.env, old(View()), args)
    {
      hide SetPhaseResult, FindCachedTagResult, PrimeCacheResult;
      var ignored := client.SetPhase(CheckingCache, NO_PULL);
      var cachedTag := FindCachedTag();
      if !cachedTag.Returned? {
        return Returned(());
      }
      if args.pullToken != "" && cachedTag.value != "" {
        ignored := client.SetPhase(PrimingCache, NO_PULL);
        var primed := PrimeCache(cachedTag.value);
        if primed.Halted? {
          return Halted;
        }
        if primed.Returned? {
          cacheTag := cachedTag.value;
        }
      }
      out := Returned(());
    }

    method ExecuteBuild() returns (out: Outcome<string>)
      requires Valid()
      modifies writer, writer.partialBuffer, client, manager
      ensures Did(writer.Whole(), out) ==
              ExecuteBuildResult(manager.env, old(writer.Whole()), args, old(buildpackDir), old(cacheTag))
    {
      hide RequestResult;
      var id := manager.env.buildID;
      var built := Request(manager, writer, BuildReq(id, CacheFrom(args, cacheTag), args.dockerfilePath, buildpackDir));
      match built {
        case Halted => return Halted;
        case Failed(e) => return Failed(BuildFailed(Message(e)));
        case Returned(_) =>
      }
      var streamError := writer.ErrResponse();
      if streamError.Some? {
        return Failed(BuildFailed(streamError.value));
      }
      out := Returned(id);
    }

    method Build() returns (out: Outcome<()>)
      requires Valid()
      modifies this, writer, writer.partialBuffer, client, manager
      ensures Staged(View(), out) == BuildResult(manager.env, old(View()), args)
    {
      hide SetPhaseResult, ExecuteBuildResult;
      out := client.SetPhase(Building, NO_PULL);
      if !out.Returned? {
        return;
      }
      var built := ExecuteBuild();
      if built.Halted? {
        return Halted;
      }
      buildID := if built.Returned? then built.value else "";
      var n := manager.Ask(RemoveDirReq(buildpackDir));
      out := if built.Failed? then Failed(built.error) else Returned(());
    }

    method PushOne(tag: string) returns (out: Outcome<()>)
      requires Valid()
      modifies writer, writer.partialBuffer, client, manager
      ensures Did(writer.Whole(), out) == PushOneResult(manager.env, old(writer.Whole()), args, old(buildID), tag)
    {
      hide RetryResult;
      var n := manager.Ask(TagEvent(args, buildID, tag));
      var reply := manager.env.container(n);
      if reply.err.Some? {
        return Failed(TagError(reply.err.value));
      }
      var streamError := writer.ErrResponse();
      if streamError.Some? {
        return Failed(TagError(streamError.value));
      }
      out := RetryDockerRequest(manager, writer, PushEvent(args, tag));
      if out.Failed? {
        out := Failed(PushError(Message(out.error)));
      }
    }

    method PushBuiltImage() returns (out: Outcome<Image>)
      requires Valid()
      modifies writer, writer.partialBuffer, client, manager
      ensures Did(writer.Whole(), out) == PushBuiltResult(manager.env, old(writer.Whole()), args, old(buildID))
    {
      hide PushOneResult;
      ghost var w0 := writer.Whole();
      for i := 0 to |args.tagNames|
        invariant PushFrom(manager.env, writer.Whole(), args, buildID, i) == PushFrom(manager.env, w0, args, buildID, 0)
      {
        var pushed := PushOne(args.tagNames[i]);
        match pushed {
          case Halted => return Halted;
          case Failed(e) => return Failed(e);
          case Returned(_) =>
        }
      }
      var n := manager.Ask(InspectReq(buildID));
      var inspected := manager.env.inspect(n);
      if inspected.Err? {
        return Failed(TagError(inspected.message));
      }
      var streamError := writer.ErrResponse();
      if streamError.Some? {
        return Failed(TagError(streamError.value));
      }
      out := Returned(inspected.value);
    }

    method Push() returns (out: Outcome<BuildMetadata>)
      requires Valid()
      modifies writer, writer.partialBuffer, client, manager
      ensures Staged(View(), out) == PushResult(manager.env, old(View()), args)
    {
      hide SetPhaseResult, PushBuiltResult;
      var phased := client.SetPhase(Pushing, NO_PULL);
      match phased {
        case Halted => return Halted;
        case Failed(e) => return Failed(e);
        case Returned(_) =>
      }
      var pushed := PushBuiltImage();
      match pushed {
        case Halted => return Halted;
        case Failed(e) => return Failed(e);
        case Returned(image) => return Returned(BuildMetadata(image.id, image.digests));
      }
    }

    method Cleanup(builtImageID: string) returns (out: Outcome<()>)
      requires Valid()
      modifies manager
      ensures Staged(View(), out) == CleanupResult(manager.env, old(View()), args, builtImageID)
    {
      var n;
      if cacheTag != "" {
        n := manager.Ask(RemoveReq(CacheImage(args, cacheTag)));
      }
      n := manager.Ask(RemoveReq(BaseImage(metadata)));
      n := manager.Ask(RemoveReq(builtImageID));
      n := manager.Ask(PruneReq);
      out := Returned(());
    }

    /** The whole build, after registration. */
    method Run() returns (out: Outcome<BuildMetadata>)
      requires Valid()
      modifies this, writer, writer.partialBuffer, client, manager
      ensures Staged(View(), out) == RunResult(manager.env, old(View()), args)
    {
      hide SetPhaseResult, UnpackResult, PullResult, CacheResult, BuildResult, PushResult;
      var done := Unpack();
      if !done.Returned? {
        return Stop(done);
      }
      done := Pull();
      if !done.Returned? {
        return Stop(done);
      }
      done := Cache();
      if !done.Returned? {
        return Stop(done);
      }
      done := Build();
      if !done.Returned? {
        return Stop(done);
      }
      var pushed := Push();
      if !pushed.Returned? {
        return pushed;
      }
      var n := manager.Ask(StopHeartbeat);
      done := client.SetPhase(Phase.Complete, NO_PULL);
      match done {
        case Halted => return Halted;
        case Failed(e) => return Failed(e);
        case Returned(_) =>
      }
      done := Cleanup(pushed.value.imageID);
      assert done.Returned?;  // the Go program checks for a cleanup error here; there is none
      out := pushed;
    }
  }

  /** The whole program after connecting: register the job, and build it. The heartbeat that runs
      beside the build is in `Heartbeat`. */
  method RegisterAndBuild(manager: Manager, jwt: string) returns (out: Outcome<BuildMetadata>)
    requires manager.trace == []
    modifies manager
    ensures var registered := RegisterResult(manager.env, Link(Waiting, "", 0, 0, []), jwt);
            if registered.out.Returned? then
              var run := RunResult(manager.env, NewBuilder(registered.link), registered.out.value);
              manager.trace == run.b.w.link.trace && out == run.out
            else out == Halted && manager.trace == registered.link.trace
    ensures var answer := manager.env.register(0);
            if answer.Ok? && answer.value.packageKnown then
              var task := Task(answer.value.jwt, answer.value.args, manager.env.buildID);
              && Follows(manager.env, task, manager.trace)
              && (!out.Halted? ==> PointAt(manager.env, task, manager.trace) == Over(out))
            else out == Halted && manager.trace == [RegisterReq(jwt)]
  {
    hide RunResult, Follows, PointAt;
    RegistrationSetsToken(manager.env, jwt);
    var client := new GrpcClient(manager);
    var args := client.RegisterBuildJob(jwt);
    if !args.Returned? {
      return Halted;
    }
    RunFollowsProtocol(manager.env, args.value, client.View());
    var context := new Context(client, args.value);
    out := context.Run();
  }
}
