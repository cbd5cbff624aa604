/** The sequence-numbered client of the build manager. */
module GrpcBuild {
  import opened Outside

  function PhaseEnum(phase: Phase): WirePhase {
    match phase
    case Waiting => WAITING
    case Unpacking => UNPACKING
    case Pulling => PULLING
    case CheckingCache => PULLING
    case PrimingCache => PULLING
    case Building => BUILDING
    case Pushing => PUSHING
    case Complete => COMPLETE
    case Error => ERROR
  }

  // ---------------------------------------------------------------- what each call does

  /** The counter moves before the request is sent, and nothing moves it back. */
  function SetPhaseResult(env: Env, l: Link, phase: Phase, pull: PullMetadata): Call<()> {
    var c := l.(currentPhase := phase, phaseNum := l.phaseNum + 1);
    var c1 := Record(c, PhaseReq(c.jobToken, ToInt32(c.phaseNum), PhaseEnum(phase), pull));
    match env.setPhase(|l.trace|)
    case PhaseError(m) => Call(c1, Failed(Plain(m)))
    case PhaseReply(success, number) =>
      if !success || number as int != c.phaseNum then Call(c1, Failed(RejectedPhase))
      else Call(c1, Returned(()))
  }

  function FindTagResult(env: Env, l: Link, image: string, tag: string, imageID: string): Call<string> {
    var l1 := Record(l, CachedTagReq(l.jobToken, image, tag, imageID));
    match env.cachedTag(|l.trace|)
    case Ok(t) => Call(l1, Returned(t))
    case Err(m) => Call(l1, Failed(Plain(m)))
  }

  /** Only a send error other than end-of-stream moves the log counter back. */
  function PublishResult(env: Env, l: Link, entry: string): Call<()> {
    var c := l.(logNum := l.logNum + 1);
    var e := LogReq(c.jobToken, ToInt32(c.logNum), entry);
    match env.send(|l.trace|)
    case SendError(m) => Call(Record(l, e), Failed(Plain(m)))
    case _ => Call(Record(c, e), Returned(()))
  }

  function RegisterResult(env: Env, l: Link, jwt: string): Call<BuildArgs> {
    var l1 := Record(l, RegisterReq(jwt));
    match env.register(|l.trace|)
    case Err(m) => Call(l1, Failed(Plain(m)))
    case Ok(job) =>
      var l2 := l1.(jobToken := job.jwt);
      if job.packageKnown then Call(l2, Returned(job.args))
      else Call(l2, Failed(Plain("unexpected build package type")))
  }

  // ---------------------------------------------------------------- the client as an object

  class GrpcClient {
    const manager: Manager
    var currentPhase: Phase
    var jobToken: string
    var logSequenceNum: int
    var phaseSequenceNum: int

    constructor (manager: Manager)
      ensures this.manager == manager
      ensures View() == Link(Waiting, "", 0, 0, manager.trace)
    {
      this.manager := manager;
      currentPhase, jobToken, logSequenceNum, phaseSequenceNum := Waiting, "", 0, 0;
    }

    ghost function View(): Link
      reads this, manager
    {
      Link(currentPhase, jobToken, logSequenceNum, phaseSequenceNum, manager.trace)
    }

    method RegisterBuildJob(jwt: string) returns (out: Outcome<BuildArgs>)
      modifies this, manager
      ensures Call(View(), out) == RegisterResult(manager.env, old(View()), jwt)
    {
      var n := manager.Ask(RegisterReq(jwt));
      match manager.env.register(n) {
        case Err(m) =>
          return Failed(Plain(m));
        case Ok(job) =>
          jobToken := job.jwt;
          if !job.packageKnown {
            return Failed(Plain("unexpected build package type"));
          }
          return Returned(job.args);
      }
    }

    method SetPhase(phase: Phase, pull: PullMetadata) returns (out: Outcome<()>)
      modifies this, manager
      ensures Call(View(), out) == SetPhaseResult(manager.env, old(View()), phase, pull)
    {
      currentPhase := phase;
      phaseSequenceNum := phaseSequenceNum + 1;
      var n := manager.Ask(PhaseReq(jobToken, ToInt32(phaseSequenceNum), PhaseEnum(phase), pull));
      match manager.env.setPhase(n) {
        case PhaseError(m) =>
          return Failed(Plain(m));
        case PhaseReply(success, number) =>
          if !success {
            return Failed(RejectedPhase);
          }
          if number as int != phaseSequenceNum {
            return Failed(RejectedPhase);
          }
          return Returned(());
      }
    }

    method FindMostSimilarTag(image: string, tag: string, imageID: string) returns (out: Outcome<string>)
      modifies manager
      ensures Call(View(), out) == FindTagResult(manager.env, old(View()), image, tag, imageID)
    {
      var n := manager.Ask(CachedTagReq(jobToken, image, tag, imageID));
      match manager.env.cachedTag(n) {
        case Ok(t) => return Returned(t);
        case Err(m) => return Failed(Plain(m));
      }
    }

    method PublishBuildLogEntry(entry: string) returns (out: Outcome<()>)
      modifies this, manager
      ensures Call(View(), out) == PublishResult(manager.env, old(View()), entry)
    {
      logSequenceNum := logSequenceNum + 1;
      var n := manager.Ask(LogReq(jobToken, ToInt32(logSequenceNum), entry));
      match manager.env.send(n) {
        case SendEof =>
          return Returned(());
        case SendError(m) =>
          logSequenceNum := logSequenceNum - 1;
          return Failed(Plain(m));
        case Sent(ack) =>
          // A missing, failed or negative acknowledgement is only logged.
          return Returned(());
      }
    }
  }

  // ---------------------------------------------------------------- the numbers on the wire

  /** A number crosses the wire unchanged exactly if it is a 32-bit number. */
  lemma NumberSurvives(n: nat)
    ensures ToInt32(n) as int == n <==> n < 0x8000_0000
  {
  }

  /** Two counter values look the same on the wire exactly if they differ by a multiple of 2^32. */
  lemma SameWireNumber(a: int, b: int)
    ensures ToInt32(a) == ToInt32(b) <==> (a - b) % 0x1_0000_0000 == 0
  {
    var m := 0x1_0000_0000;
    var x, y := a + 0x8000_0000, b + 0x8000_0000;
    assert x == x / m * m + x % m && y == y / m * m + y % m;
    var q := x / m - y / m;
    assert a - b == q * m + (x % m - y % m);
    if (a - b) % m == 0 {
      var k := (a - b) / m;
      assert a - b == k * m;
      assert x % m - y % m == (k - q) * m;
    }
    if ToInt32(a) == ToInt32(b) {
      assert x % m == y % m;
      assert a - b == q * m;
      MultipleHasNoRemainder(q, m);
    }
  }

  lemma MultipleHasNoRemainder(q: int, m: int)
    requires m == 0x1_0000_0000
    ensures (q * m) % m == 0
  {
  }

  /** The place of a phase in the course of a build. */
  function Order(p: Phase): nat {
    match p
    case Waiting => 0
    case Unpacking => 1
    case Pulling => 2
    case CheckingCache => 3
    case PrimingCache => 4
    case Building => 5
    case Pushing => 6
    case Complete => 7
    case Error => 8
  }

  /** The nine phases cover the seven on the wire, whose values are 0 to 6, and keep their order;
      only the cache phases share a value, that of pulling. */
  lemma PhasesKeepOrder(p: Phase, q: Phase, wire: WirePhase)
    ensures WireValue(wire) <= 6
    ensures WireValue(PhaseEnum(p)) == WireValue(PhaseEnum(q)) <==> PhaseEnum(p) == PhaseEnum(q)
    ensures Order(p) <= Order(q) ==> WireValue(PhaseEnum(p)) <= WireValue(PhaseEnum(q))
    ensures PhaseEnum(p) == PhaseEnum(q) <==> p == q || (2 <= Order(p) <= 4 && 2 <= Order(q) <= 4)
    ensures exists r :: PhaseEnum(r) == wire
  {
    var r := match wire
      case WAITING => Waiting
      case UNPACKING => Unpacking
      case PULLING => Pulling
      case BUILDING => Building
      case PUSHING => Pushing
      case COMPLETE => Phase.Complete
      case ERROR => Phase.Error;
    assert PhaseEnum(r) == wire;
  }

  /** Phase updates in a row, whatever phases they carry. */
  function SetPhases(env: Env, l: Link, phases: seq<Phase>): Link {
    if phases == [] then l
    else
      var n := |phases| - 1;
      SetPhaseResult(env, SetPhases(env, l, phases[..n]), phases[n], NO_PULL).link
  }

  /** A manager that accepts every update and echoes the number it received. */
  ghost predicate EchoesAll(env: Env, l: Link, phases: seq<Phase>) {
    forall k: nat | k < |phases| :: EchoesAt(env, l, k)
  }

  predicate EchoesAt(env: Env, l: Link, k: nat) {
    env.setPhase(|l.trace| + k) == PhaseReply(true, ToInt32(l.phaseNum + k + 1))
  }

  /** What one update adds, whatever the answer to it. */
  lemma SetPhaseAdds(env: Env, l: Link, phase: Phase, pull: PullMetadata)
    ensures var v := SetPhaseResult(env, l, phase, pull).link;
            && v.trace == l.trace + [PhaseReq(l.jobToken, ToInt32(l.phaseNum + 1), PhaseEnum(phase), pull)]
            && v.phaseNum == l.phaseNum + 1 && v.jobToken == l.jobToken && v.logNum == l.logNum
            && !SetPhaseResult(env, l, phase, pull).out.Halted?
  {
    hide ToInt32, PhaseEnum;
  }

  /** The k-th update sends number k, accepted or not. */
  lemma {:induction false} PhaseHistory(env: Env, l: Link, phases: seq<Phase>)
    ensures var v := SetPhases(env, l, phases);
            && v.phaseNum == l.phaseNum + |phases|
            && v.jobToken == l.jobToken
            && |v.trace| == |l.trace| + |phases|
            && v.trace[..|l.trace|] == l.trace
            && forall k | 0 <= k < |phases| ::
                 v.trace[|l.trace| + k] ==
                 PhaseReq(l.jobToken, ToInt32(l.phaseNum + k + 1), PhaseEnum(phases[k]), NO_PULL)
    decreases |phases|
  {
    hide ToInt32, PhaseEnum, SetPhaseResult;
    if phases != [] {
      var n := |phases| - 1;
      PhaseHistory(env, l, phases[..n]);
      var u, v := SetPhases(env, l, phases[..n]), SetPhases(env, l, phases);
      SetPhaseAdds(env, u, phases[n], NO_PULL);
      forall k | 0 <= k < n ensures v.trace[|l.trace| + k] == u.trace[|l.trace| + k] && phases[..n][k] == phases[k] {
      }
    }
  }

  /** After any history of updates, the next one succeeds exactly while its number fits. */
  lemma AcceptedWhileNumberFits(env: Env, l: Link, phases: seq<Phase>, next: Phase)
    requires l.phaseNum == 0
    requires EchoesAll(env, l, phases + [next])
    ensures var r := SetPhaseResult(env, SetPhases(env, l, phases), next, NO_PULL);
            r.out.Returned? <==> |phases| + 1 <= 0x7FFF_FFFF
  {
    PhaseHistory(env, l, phases);
    var k := |phases|;
    assert EchoesAt(env, l, k);
    NumberSurvives(k + 1);
  }
}
