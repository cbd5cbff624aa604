/** The world outside the builder: the build manager, the container runtime and the file system.

    Every request the builder makes is an event. The answer to the n-th event is `env.x(n)`, an
    arbitrary function, so a statement about all `env` is a statement about every way the
    outside world can behave in one run.
 */
module Outside {
  import opened JsonScanner

  datatype Option<+T> = None | Some(value: T)

  /** The result of a Go call that returns a value or an error. */
  datatype Result<+T> = Ok(value: T) | Err(message: string)

  /** The result of builder code: it returns a value, returns an error, or ends the process. */
  datatype Outcome<+T> = Returned(value: T) | Failed(error: Error) | Halted

  datatype Error =
    | Plain(message: string)
    | RejectedPhase
    | PullError(message: string)
    | CannotPullForCache(message: string)
    | TagError(message: string)
    | PushError(message: string)
    | BuildFailed(message: string)

  function Message(e: Error): string {
    if e.RejectedPhase? then "" else e.message
  }

  // ---------------------------------------------------------------- phases and numbers

  datatype Phase =
    Waiting | Unpacking | CheckingCache | PrimingCache | Pulling | Building | Pushing | Complete | Error

  datatype WirePhase = WAITING | UNPACKING | PULLING | BUILDING | PUSHING | COMPLETE | ERROR

  function WireValue(p: WirePhase): nat {
    match p
    case WAITING => 0
    case UNPACKING => 1
    case PULLING => 2
    case BUILDING => 3
    case PUSHING => 4
    case COMPLETE => 5
    case ERROR => 6
  }

  newtype int32 = i: int | -0x8000_0000 <= i < 0x8000_0000

  /** The Go conversion `int32(n)`: it keeps the low 32 bits. */
  function ToInt32(n: int): int32 {
    ((n + 0x8000_0000) % 0x1_0000_0000 - 0x8000_0000) as int32
  }

  // ---------------------------------------------------------------- records

  datatype Response =
    Response(error: string, stream: string, status: string, id: string, current: int, total: int)

  const EMPTY_RESPONSE := Response("", "", "", "", 0, 0)

  datatype PullMetadata = PullMetadata(registry: string, image: string, tag: string, username: string)

  const NO_PULL := PullMetadata("", "", "", "")

  datatype Auth = Auth(username: string, password: string)

  datatype BuildArgs = BuildArgs(
    dockerfilePath: string, repository: string, registry: string,
    pullToken: string, pushToken: string, tagNames: seq<string>, baseImage: Auth)
  {
    function FullRepoName(): string {
      registry + "/" + repository
    }
  }

  /** What the Dockerfile says about the base image. */
  datatype Metadata = Metadata(baseImage: string, baseImageTag: string)

  datatype Image = Image(id: string, digests: seq<string>)

  datatype BuildMetadata = BuildMetadata(imageID: string, digests: seq<string>)

  // ---------------------------------------------------------------- requests and answers

  datatype Event =
    | RegisterReq(jwt: string)
    | PhaseReq(token: string, number: int32, phase: WirePhase, pull: PullMetadata)
    | LogReq(token: string, number: int32, entry: string)
    | CachedTagReq(token: string, image: string, tag: string, imageID: string)
    | PullReq(registry: string, repository: string, tag: string, auth: Auth)
    | BuildReq(name: string, cacheFrom: seq<string>, dockerfile: string, contextDir: string)
    | TagReq(imageID: string, repository: string, tag: string)
    | PushReq(registry: string, repository: string, tag: string, auth: Auth)
    | InspectReq(name: string)
    | RemoveReq(name: string)
    | PruneReq
    | DownloadReq
    | ParseReq(dir: string, dockerfile: string)
    | RemoveDirReq(dir: string)
    | StopHeartbeat

  /** Sending one log message and then waiting for its acknowledgement. */
  datatype SendReply = Sent(ack: Ack) | SendEof | SendError(message: string)
  datatype Ack = Acked(success: bool) | AckEof | AckError(message: string)

  datatype PhaseReply = PhaseReply(success: bool, number: int32) | PhaseError(message: string)

  /** What a container request wrote to its output stream, piece by piece, and its error. */
  datatype ContainerReply = ContainerReply(chunks: seq<Bytes>, err: Option<string>)

  datatype Job = Job(jwt: string, args: BuildArgs, packageKnown: bool)

  datatype Env = Env(
    register: nat -> Result<Job>,
    setPhase: nat -> PhaseReply,
    send: nat -> SendReply,
    cachedTag: nat -> Result<string>,
    container: nat -> ContainerReply,
    inspect: nat -> Result<Image>,
    download: nat -> Result<string>,
    parse: nat -> Result<Metadata>,
    decode: Bytes -> Option<Response>,     // the fields of a complete object, or a type error
    marshal: Response -> Option<string>,   // the record as a log entry
    buildID: string)

  /** A request whose answer is written to the log writer as it arrives. */
  predicate Streams(e: Event) {
    e.PullReq? || e.BuildReq? || e.PushReq?
  }

  // ---------------------------------------------------------------- the state of the builder

  /** The client's fields and everything that was asked of the outside world so far. */
  datatype Link = Link(currentPhase: Phase, jobToken: string, logNum: int, phaseNum: int, trace: seq<Event>)

  /** What a client call leaves behind and what it returns. */
  datatype Call<+T> = Call(link: Link, out: Outcome<T>)

  datatype WriterState = WriterState(partial: Bytes, err: Option<Response>)

  datatype World = World(link: Link, writer: WriterState)

  /** What builder code leaves behind and what it returns. */
  datatype Did<+T> = Did(w: World, out: Outcome<T>)

  function Record(l: Link, e: Event): Link {
    l.(trace := l.trace + [e])
  }

  function Emit(w: World, e: Event): World {
    w.(link := Record(w.link, e))
  }

  function Lift<T>(w: World, c: Call<T>): Did<T> {
    Did(w.(link := c.link), c.out)
  }

  /** The outside world as an object that records what it is asked. */
  class Manager {
    const env: Env
    var trace: seq<Event>

    constructor (env: Env)
      ensures this.env == env && trace == []
    {
      this.env := env;
      trace := [];
    }

    method Ask(e: Event) returns (n: nat)
      modifies this
      ensures n == |old(trace)| && trace == old(trace) + [e]
    {
      n := |trace|;
      trace := trace + [e];
    }
  }
}
