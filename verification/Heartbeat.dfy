/** The heartbeat loop, and the process in which it runs beside the build. */
module Heartbeat {
  import opened Outside
  import opened DockerLogWriter
  import opened BuildContext
  import opened Trace
  import opened Soundness
  import opened Runs
  import opened Theorems
  import GrpcBuild

  const MAX_RETRIES := 3

  /** What one turn of the loop meets: a cancelled context at its top, a failed send, the end of
      the reply stream, a failed receive, or a reply. */
  datatype Beat = Cancelled | SendFails | ReplyEof | ReplyFails | Reply(ok: bool)

  datatype Exit = Running | Stopped | Fatal

  datatype LoopState = LoopState(retries: int, exit: Exit, sends: nat, sleeps: nat)

  const LOOP_START := LoopState(MAX_RETRIES, Running, 0, 0)

  function Turn(s: LoopState, b: Beat): LoopState {
    if s.exit != Running then s
    else if b.Cancelled? then s.(exit := Stopped)
    else if s.retries == 0 then s.(exit := Fatal)
    else
      var t := s.(sends := s.sends + 1);
      match b
      case ReplyEof => t.(exit := Stopped)
      case Reply(ok) =>
        if ok then t.(retries := MAX_RETRIES, sleeps := t.sleeps + 1) else t.(retries := t.retries - 1)
      case SendFails => t.(sleeps := t.sleeps + 1)
      case ReplyFails => t.(sleeps := t.sleeps + 1)
      case Cancelled => t  // seen to above
  }

  function Turns(beats: seq<Beat>): LoopState {
    if beats == [] then LOOP_START
    else Turn(Turns(beats[..|beats| - 1]), beats[|beats| - 1])
  }

  /** The loop over a finite part of what the outside world does; `exit` says whether it is
      still running after that part. */
  method Loop(streamOpens: bool, beats: seq<Beat>) returns (exit: Exit, retries: int, sends: nat, sleeps: nat)
    ensures !streamOpens ==> exit == Fatal && sends == 0
    ensures streamOpens ==> LoopState(retries, exit, sends, sleeps) == Turns(beats)
    ensures streamOpens && exit == Running ==> retries == 3 - Negatives(beats) && 0 <= retries <= 3
    ensures streamOpens ==> (exit == Fatal <==> exists k :: FatalAt(beats, k))
  {
    retries, sends, sleeps := MAX_RETRIES, 0, 0;
    if !streamOpens {
      exit := Fatal;
      return;
    }
    exit := Running;
    var i := 0;
    while i < |beats| && exit == Running
      invariant 0 <= i <= |beats|
      invariant LoopState(retries, exit, sends, sleeps) == Turns(beats[..i])
    {
      var b := beats[i];
      assert beats[..i + 1][..i] == beats[..i];
      i := i + 1;
      if b.Cancelled? {
        exit := Stopped;
        break;
      }
      if retries == 0 {
        exit := Fatal;
        break;
      }
      sends := sends + 1;
      match b {
        case SendFails =>
        case ReplyEof =>
          exit := Stopped;
          break;
        case ReplyFails =>
        case Reply(ok) =>
          if ok {
            retries := MAX_RETRIES;
          } else {
            retries := retries - 1;
            continue;  // retry without sleeping
          }
      }
      sleeps := sleeps + 1;
    }
    EndsOnce(beats, i);
    assert beats[..|beats|] == beats;
    CounterIsNegatives(beats);
    FatalExactly(beats);
  }

  lemma {:induction false} EndsOnce(beats: seq<Beat>, i: nat)
    requires i <= |beats|
    ensures Turns(beats[..i]).exit != Running ==> Turns(beats) == Turns(beats[..i])
    decreases |beats|
  {
    if i < |beats| {
      var n := |beats| - 1;
      EndsOnce(beats[..n], i);
      assert beats[..n][..i] == beats[..i];
    } else {
      assert beats[..i] == beats;
    }
  }

  // ---------------------------------------------------------------- the retry counter

  /** The negative replies since the last positive one. */
  function Negatives(beats: seq<Beat>): nat {
    if beats == [] then 0
    else
      var before := Negatives(beats[..|beats| - 1]);
      match beats[|beats| - 1]
      case Reply(ok) => if ok then 0 else before + 1
      case _ => before
  }

  /** While the loop runs, its counter is three less the negative replies since the last
      positive one, and failed sends and receives do not change it. */
  lemma {:induction false} CounterIsNegatives(beats: seq<Beat>)
    ensures var s := Turns(beats);
            s.exit == Running ==> s.retries == 3 - Negatives(beats) && 0 <= s.retries <= 3
    decreases |beats|
  {
    if beats != [] {
      CounterIsNegatives(beats[..|beats| - 1]);
    }
  }

  /** Turn `j` does not end the loop from outside, and is not the one after the last retry. */
  predicate Harmless(beats: seq<Beat>, j: nat)
    requires j < |beats|
  {
    !beats[j].Cancelled? && !beats[j].ReplyEof? && Negatives(beats[..j]) < 3
  }

  /** Three negative replies in a row, errors aside, were met by turn `k`, the loop had not been
      cancelled or cut off before, and it is not cancelled at the top of turn `k` either. */
  ghost predicate FatalAt(beats: seq<Beat>, k: int) {
    && 0 <= k < |beats|
    && (forall j | 0 <= j < k :: Harmless(beats, j))
    && Negatives(beats[..k]) == 3
    && !beats[k].Cancelled?
  }

  /** While nothing ended it, the loop is running. */
  lemma {:induction false} StillRunning(beats: seq<Beat>, k: nat)
    requires k <= |beats|
    ensures Turns(beats[..k]).exit == Running <==> forall j | 0 <= j < k :: Harmless(beats, j)
    decreases k
  {
    if k > 0 {
      StillRunning(beats, k - 1);
      CounterIsNegatives(beats[..k - 1]);
      assert beats[..k][..k - 1] == beats[..k - 1];
      assert Turns(beats[..k]) == Turn(Turns(beats[..k - 1]), beats[k - 1]);
      assert Turns(beats[..k]).exit == Running <==> Turns(beats[..k - 1]).exit == Running && Harmless(beats, k - 1);
    }
  }

  lemma FatalAtMeans(beats: seq<Beat>, k: nat)
    requires k < |beats|
    ensures FatalAt(beats, k) <==>
            Turns(beats[..k]).exit == Running && Turns(beats[..k]).retries == 0 && !beats[k].Cancelled?
  {
    StillRunning(beats, k);
    CounterIsNegatives(beats[..k]);
  }

  lemma {:induction false} FirstFatal(beats: seq<Beat>) returns (k: nat)
    requires Turns(beats).exit == Fatal
    ensures FatalAt(beats, k)
    decreases |beats|
  {
    var n := |beats| - 1;
    if Turns(beats[..n]).exit == Fatal {
      k := FirstFatal(beats[..n]);
      FatalAtMeans(beats[..n], k);
      assert beats[..n][..k] == beats[..k];
    } else {
      k := n;
    }
    FatalAtMeans(beats, k);
  }

  /** The fatal exit is reached exactly then. */
  lemma FatalExactly(beats: seq<Beat>)
    ensures Turns(beats).exit == Fatal <==> exists k :: FatalAt(beats, k)
  {
    if Turns(beats).exit == Fatal {
      var k := FirstFatal(beats);
    }
    if k :| FatalAt(beats, k) {
      FatalAtMeans(beats, k);
      assert beats[..k + 1][..k] == beats[..k];
      EndsOnce(beats, k + 1);
    }
  }

  /** Failed sends and receives alone never end the process. */
  lemma {:induction false} ErrorsAreHarmless(beats: seq<Beat>)
    requires forall i | 0 <= i < |beats| :: beats[i] != Reply(false)
    ensures Turns(beats).exit != Fatal && Negatives(beats) == 0
    decreases |beats|
  {
    if beats != [] {
      ErrorsAreHarmless(beats[..|beats| - 1]);
      CounterIsNegatives(beats[..|beats| - 1]);
    }
  }

  /** Turn `k` ends the loop quietly: it is cancelled at its top, or it sends a heartbeat and
      meets the end of the reply stream. */
  ghost predicate StoppedAt(beats: seq<Beat>, k: int) {
    && 0 <= k < |beats|
    && (forall j | 0 <= j < k :: Harmless(beats, j))
    && (beats[k].Cancelled? || (beats[k].ReplyEof? && Negatives(beats[..k]) < 3))
  }

  lemma StoppedAtMeans(beats: seq<Beat>, k: nat)
    requires k < |beats|
    ensures StoppedAt(beats, k) <==>
            Turns(beats[..k]).exit == Running && Turns(beats[..k + 1]).exit == Stopped
  {
    StillRunning(beats, k);
    CounterIsNegatives(beats[..k]);
    assert beats[..k + 1][..k] == beats[..k];
  }

  lemma {:induction false} FirstStop(beats: seq<Beat>) returns (k: nat)
    requires Turns(beats).exit == Stopped
    ensures StoppedAt(beats, k)
    decreases |beats|
  {
    var n := |beats| - 1;
    assert beats[..n + 1] == beats;
    if Turns(beats[..n]).exit == Stopped {
      k := FirstStop(beats[..n]);
      StoppedAtMeans(beats[..n], k);
      assert beats[..n][..k] == beats[..k] && beats[..n][..k + 1] == beats[..k + 1];
    } else {
      k := n;
    }
    StoppedAtMeans(beats, k);
  }

  /** The quiet exit is reached exactly then. */
  lemma StoppedExactly(beats: seq<Beat>)
    ensures Turns(beats).exit == Stopped <==> exists k :: StoppedAt(beats, k)
  {
    if Turns(beats).exit == Stopped {
      var k := FirstStop(beats);
    }
    if k :| StoppedAt(beats, k) {
      StoppedAtMeans(beats, k);
      EndsOnce(beats, k + 1);
    }
  }

  /** How many replies were negative. */
  function Refusals(beats: seq<Beat>): nat {
    if beats == [] then 0
    else Refusals(beats[..|beats| - 1]) + if beats[|beats| - 1] == Reply(false) then 1 else 0
  }

  /** While the loop runs every turn sends one heartbeat, and every turn but those with a negative
      reply, which are retried at once, is followed by a pause. */
  lemma {:induction false} OneHeartbeatATurn(beats: seq<Beat>)
    ensures var s := Turns(beats);
            s.exit == Running ==> s.sends == |beats| && s.sleeps == |beats| - Refusals(beats)
    decreases |beats|
  {
    if beats != [] {
      OneHeartbeatATurn(beats[..|beats| - 1]);
    }
  }

  // ---------------------------------------------------------------- beside the build

  datatype Place = NotStarted | Opening | Top | Sending | Receiving | Sleeping | Ended

  /** A request as the manager sees it: one of the build's, or a heartbeat. */
  datatype Seen = Built(e: Event) | Beaten(token: string)

  /** The process: what the client holds, how far the build is, where the heartbeat is. */
  datatype System = System(
    jobToken: string, registered: bool, pos: nat,
    place: Place, retries: int, beats: seq<Beat>, cancelled: bool, over: bool, seen: seq<Seen>)

  const BEFORE := System("", false, 0, NotStarted, MAX_RETRIES, [], false, false, [])

  /** A scheduling choice: the main goroutine takes its next step, or the heartbeat goroutine
      takes one and meets `answer` where it asks for one. */
  datatype Choice = Main | Beat(answer: Answer)
  datatype Answer = Fails | Eof | Positive | Negative

  /** One step of the process whose build makes the requests `plan` after registering with the
      token `token`. A choice that is not possible changes nothing. */
  function Advance(token: string, plan: seq<Event>, s: System, c: Choice): System {
    if s.over then s
    else
      match c
      case Main =>
        if !s.registered then s.(registered := true, jobToken := token, place := Opening)
        else if s.pos < |plan| then
          s.(pos := s.pos + 1, seen := s.seen + [Built(plan[s.pos])], cancelled := s.cancelled || plan[s.pos].StopHeartbeat?)
        else s.(over := true)
      case Beat(answer) =>
        match s.place
        case NotStarted => s
        case Opening => if answer.Fails? then s.(over := true) else s.(place := Top)
        case Top =>
          if s.cancelled then s.(place := Ended, beats := s.beats + [Cancelled])
          else if s.retries == 0 then s.(over := true)
          else s.(place := Sending)
        case Sending =>
          var t := s.(seen := s.seen + [Beaten(s.jobToken)]);
          if answer.Fails? then t.(place := Sleeping, beats := t.beats + [SendFails]) else t.(place := Receiving)
        case Receiving =>
          (match answer
           case Eof => s.(place := Ended, beats := s.beats + [ReplyEof])
           case Fails => s.(place := Sleeping, beats := s.beats + [ReplyFails])
           case Positive => s.(place := Sleeping, retries := MAX_RETRIES, beats := s.beats + [Reply(true)])
           case Negative => s.(place := Top, retries := s.retries - 1, beats := s.beats + [Reply(false)]))
        case Sleeping => s.(place := Top)
        case Ended => s
  }

  /** Further choices from a state on. */
  function After(token: string, plan: seq<Event>, s: System, choices: seq<Choice>): System {
    if choices == [] then s
    else Advance(token, plan, After(token, plan, s, choices[..|choices| - 1]), choices[|choices| - 1])
  }

  function Reached(token: string, plan: seq<Event>, choices: seq<Choice>): System {
    After(token, plan, BEFORE, choices)
  }

  predicate CarriesToken(e: Seen, token: string) {
    match e
    case Beaten(t) => t == token
    case Built(PhaseReq(t, _, _, _)) => t == token
    case Built(LogReq(t, _, _)) => t == token
    case Built(CachedTagReq(t, _, _, _)) => t == token
    case _ => true
  }

  /** The heartbeats sent after the heartbeat was stopped. */
  function BeatsAfterStop(seen: seq<Seen>): nat {
    if seen == [] then 0
    else
      var n := |seen| - 1;
      if seen[n].Beaten? && Built(StopHeartbeat) in seen[..n] then BeatsAfterStop(seen[..n]) + 1
      else BeatsAfterStop(seen[..n])
  }

  /** What was seen: the token everywhere, and no heartbeat after the stop, but for one that was
      already about to be sent. */
  ghost predicate SeenOk(token: string, seen: seq<Seen>, cancelled: bool, sending: bool) {
    && (forall i | 0 <= i < |seen| :: CarriesToken(seen[i], token))
    && (cancelled <==> Built(StopHeartbeat) in seen)
    && BeatsAfterStop(seen) <= (if sending || !cancelled then 0 else 1)
  }

  /** Where the loop is, against the turns it has completed. */
  ghost predicate LoopOk(place: Place, retries: int, beats: seq<Beat>) {
    && retries == Turns(beats).retries
    && Turns(beats).exit == (if place == Ended then Stopped else Running)
    && (place in {NotStarted, Opening} ==> beats == [])
    && (place in {Sending, Receiving} ==> retries > 0)
  }

  ghost predicate Invariant(token: string, plan: seq<Event>, s: System) {
    && s.pos <= |plan|
    && (s.place != NotStarted <==> s.registered)
    && (s.registered ==> s.jobToken == token)
    && SeenOk(token, s.seen, s.cancelled, s.place == Sending)
    && LoopOk(s.place, s.retries, s.beats)
    && (s.over ==> EndedRightly(plan, s))
    && Counted(plan, s)
  }

  /** The build's requests are made in its order, one after the other, and each turn of the loop
      that sends sends one heartbeat. */
  ghost predicate Counted(plan: seq<Event>, s: System)
    requires s.pos <= |plan|
  {
    && BuildRequests(s.seen) == plan[..s.pos]
    && Heartbeats(s.seen) == Turns(s.beats).sends + (if s.place == Receiving then 1 else 0)
  }

  /** The requests of the build among those seen. */
  function BuildRequests(seen: seq<Seen>): seq<Event> {
    if seen == [] then []
    else
      var n := |seen| - 1;
      if seen[n].Built? then BuildRequests(seen[..n]) + [seen[n].e] else BuildRequests(seen[..n])
  }

  function Heartbeats(seen: seq<Seen>): nat {
    if seen == [] then 0
    else Heartbeats(seen[..|seen| - 1]) + if seen[|seen| - 1].Beaten? then 1 else 0
  }

  /** The process is over because the build has ended, because the heartbeat stream could not be
      opened, or because the loop came to its top uncancelled with no retry left. */
  ghost predicate EndedRightly(plan: seq<Event>, s: System) {
    || (s.registered && s.pos == |plan|)
    || s.place == Opening
    || (s.place == Top && s.retries == 0 && !s.cancelled)
  }

  lemma BeatsSnoc(seen: seq<Seen>, e: Seen)
    ensures BeatsAfterStop(seen + [e]) ==
            BeatsAfterStop(seen) + if e.Beaten? && Built(StopHeartbeat) in seen then 1 else 0
  {
    assert (seen + [e])[..|seen|] == seen;
  }

  lemma BeatsSnocTurn(beats: seq<Beat>, b: Beat)
    ensures Turns(beats + [b]) == Turn(Turns(beats), b)
  {
    assert (beats + [b])[..|beats|] == beats;
  }

  lemma SeenMain(token: string, seen: seq<Seen>, cancelled: bool, sending: bool, e: Event)
    requires SeenOk(token, seen, cancelled, sending) && CarriesToken(Built(e), token)
    ensures SeenOk(token, seen + [Built(e)], cancelled || e.StopHeartbeat?, sending)
  {
    hide CarriesToken;
    BeatsSnoc(seen, Built(e));
  }

  lemma SeenBeat(token: string, seen: seq<Seen>, cancelled: bool)
    requires SeenOk(token, seen, cancelled, true)
    ensures SeenOk(token, seen + [Beaten(token)], cancelled, false)
  {
    assert CarriesToken(Beaten(token), token);
    hide CarriesToken;
    BeatsSnoc(seen, Beaten(token));
  }

  lemma SeenQuiet(token: string, seen: seq<Seen>, cancelled: bool, sending: bool)
    requires SeenOk(token, seen, cancelled, sending)
    ensures SeenOk(token, seen, cancelled, false)
    ensures !cancelled ==> SeenOk(token, seen, cancelled, true)
  {
    hide CarriesToken;
  }

  lemma LoopBeat(s: System, answer: Answer)
    requires LoopOk(s.place, s.retries, s.beats) && !s.over
    ensures var t := Advance("", [], s, Beat(answer)); LoopOk(t.place, t.retries, t.beats)
  {
    hide Turns, Turn;
    TurnFacts(s.beats);
    RetriesBounded(s.beats);
    BeatsSnocTurn(s.beats, Cancelled);
    BeatsSnocTurn(s.beats, SendFails);
    BeatsSnocTurn(s.beats, ReplyFails);
    BeatsSnocTurn(s.beats, ReplyEof);
    BeatsSnocTurn(s.beats, Reply(true));
    BeatsSnocTurn(s.beats, Reply(false));
  }

  lemma SeenSnoc(seen: seq<Seen>, e: Seen)
    ensures BuildRequests(seen + [e]) == if e.Built? then BuildRequests(seen) + [e.e] else BuildRequests(seen)
    ensures Heartbeats(seen + [e]) == Heartbeats(seen) + if e.Beaten? then 1 else 0
  {
    assert (seen + [e])[..|seen|] == seen;
  }

  lemma CountedMain(token: string, plan: seq<Event>, s: System)
    requires s.pos <= |plan| && Counted(plan, s) && !s.over && (s.place != NotStarted <==> s.registered)
    ensures var t := Advance(token, plan, s, Main); t.pos <= |plan| && Counted(plan, t)
  {
    hide Turns, BuildRequests, Heartbeats;
    if s.registered && s.pos < |plan| {
      SeenSnoc(s.seen, Built(plan[s.pos]));
      assert plan[..s.pos + 1] == plan[..s.pos] + [plan[s.pos]];
    }
  }

  lemma CountedBeat(token: string, plan: seq<Event>, s: System, answer: Answer)
    requires s.pos <= |plan| && Counted(plan, s) && LoopOk(s.place, s.retries, s.beats) && !s.over
    ensures Counted(plan, Advance(token, plan, s, Beat(answer)))
  {
    SendCounts(s.beats);
    hide Turns, Turn, BuildRequests, Heartbeats;
    SeenSnoc(s.seen, Beaten(s.jobToken));
    BeatsSnocTurn(s.beats, Cancelled);
    BeatsSnocTurn(s.beats, SendFails);
    BeatsSnocTurn(s.beats, ReplyFails);
    BeatsSnocTurn(s.beats, ReplyEof);
    BeatsSnocTurn(s.beats, Reply(true));
    BeatsSnocTurn(s.beats, Reply(false));
  }

  lemma SendCounts(beats: seq<Beat>)
    ensures Turn(Turns(beats), Cancelled).sends == Turns(beats).sends
    ensures Turns(beats).exit == Running && Turns(beats).retries > 0 ==>
              forall b: Beat | !b.Cancelled? :: Turn(Turns(beats), b).sends == Turns(beats).sends + 1
  {
    hide Turns;
  }

  lemma AdvanceMain(token: string, plan: seq<Event>, s: System)
    requires Invariant(token, plan, s) && !s.over
    requires forall i | 0 <= i < |plan| :: CarriesToken(Built(plan[i]), token)
    ensures Invariant(token, plan, Advance(token, plan, s, Main))
  {
    CountedMain(token, plan, s);
    hide CarriesToken, Turns, SeenOk, Counted;
    if s.registered && s.pos < |plan| {
      SeenMain(token, s.seen, s.cancelled, s.place == Sending, plan[s.pos]);
    }
  }

  lemma BeatFrame(token: string, plan: seq<Event>, s: System, answer: Answer)
    requires !s.over && s.pos <= |plan| && (s.place != NotStarted <==> s.registered)
    ensures var t := Advance(token, plan, s, Beat(answer));
            && t.pos == s.pos && t.registered == s.registered && t.jobToken == s.jobToken
            && (t.place != NotStarted <==> t.registered)
            && (t.over ==> EndedRightly(plan, t))
  {
  }

  lemma SeenAdvance(token: string, plan: seq<Event>, s: System, answer: Answer)
    requires SeenOk(token, s.seen, s.cancelled, s.place == Sending) && !s.over
    requires s.place == Sending ==> s.jobToken == token
    ensures var t := Advance(token, plan, s, Beat(answer)); SeenOk(token, t.seen, t.cancelled, t.place == Sending)
  {
    hide SeenOk;
    if s.place == Sending {
      SeenBeat(token, s.seen, s.cancelled);
    } else {
      SeenQuiet(token, s.seen, s.cancelled, false);
    }
  }

  lemma AdvanceBeat(token: string, plan: seq<Event>, s: System, answer: Answer)
    requires Invariant(token, plan, s) && !s.over
    ensures Invariant(token, plan, Advance(token, plan, s, Beat(answer)))
  {
    hide SeenOk, LoopOk, Counted, EndedRightly;
    LoopBeat(s, answer);
    SameBeat(token, plan, s, answer);
    CountedBeat(token, plan, s, answer);
    SeenAdvance(token, plan, s, answer);
    BeatFrame(token, plan, s, answer);
    hide Advance;
  }

  /** A step of the heartbeat depends neither on the token nor on the plan. */
  lemma SameBeat(token: string, plan: seq<Event>, s: System, answer: Answer)
    ensures Advance(token, plan, s, Beat(answer)) == Advance("", [], s, Beat(answer))
  {
  }

  lemma AdvanceKeeps(token: string, plan: seq<Event>, s: System, c: Choice)
    requires Invariant(token, plan, s)
    requires forall i | 0 <= i < |plan| :: CarriesToken(Built(plan[i]), token)
    ensures Invariant(token, plan, Advance(token, plan, s, c))
  {
    hide Invariant;
    if !s.over {
      match c
      case Main => AdvanceMain(token, plan, s);
      case Beat(answer) => AdvanceBeat(token, plan, s, answer);
    }
  }

  /** One more turn, for each way it can go. */
  lemma TurnFacts(beats: seq<Beat>)
    ensures var t := Turns(beats);
            t.exit == Running && t.retries > 0 ==>
              && Turn(t, SendFails).exit == Running && Turn(t, SendFails).retries == t.retries
              && Turn(t, ReplyFails).exit == Running && Turn(t, ReplyFails).retries == t.retries
              && Turn(t, Reply(true)).exit == Running && Turn(t, Reply(true)).retries == 3
              && Turn(t, Reply(false)).exit == Running && Turn(t, Reply(false)).retries == t.retries - 1
              && Turn(t, ReplyEof).exit == Stopped && Turn(t, ReplyEof).retries == t.retries
    ensures Turn(Turns(beats), Cancelled).retries == Turns(beats).retries
    ensures Turns(beats).exit == Running ==> Turn(Turns(beats), Cancelled).exit == Stopped
  {
    hide Turns;
  }

  lemma {:induction false} ReachedKeeps(token: string, plan: seq<Event>, choices: seq<Choice>)
    requires forall i | 0 <= i < |plan| :: CarriesToken(Built(plan[i]), token)
    ensures Invariant(token, plan, Reached(token, plan, choices))
    decreases |choices|
  {
    hide Invariant, Advance;
    if choices == [] {
      InvariantAtStart(token, plan);
    } else {
      ReachedKeeps(token, plan, choices[..|choices| - 1]);
      AdvanceKeeps(token, plan, Reached(token, plan, choices[..|choices| - 1]), choices[|choices| - 1]);
    }
  }

  lemma InvariantAtStart(token: string, plan: seq<Event>)
    ensures Invariant(token, plan, BEFORE)
  {
  }

  /** What the build requests, after registration. */
  function BuildPlan(env: Env, args: BuildArgs, l: Link): seq<Event>
    requires Registered(l)
  {
    var t := FinalTrace(env, args, l);
    if t == [] then [] else t[1..]
  }

  lemma PlanCarriesToken(env: Env, args: BuildArgs, l: Link)
    requires Registered(l)
    ensures forall i | 0 <= i < |BuildPlan(env, args, l)| :: CarriesToken(Built(BuildPlan(env, args, l)[i]), l.jobToken)
  {
    hide RunResult, Numbered, Synced, ToInt32, Sends, PhaseCount;
    var r := RunResult(env, NewBuilder(l), args);
    assert Keeps(env, NewBuilder(l).w, r.b.w, r.out.Halted?) by { RunFacts(env, args, l); }
    LedgerOf(env, NewBuilder(l).w, r.b.w, r.out.Halted?);
    var t, plan := r.b.w.link.trace, BuildPlan(env, args, l);
    forall i | 0 <= i < |plan| ensures CarriesToken(Built(plan[i]), l.jobToken) {
      NumberedAt(env, l.jobToken, t, i + 1);
      assert plan[i] == t[i + 1];
    }
  }

  /** In every interleaving of a build with the heartbeat, every heartbeat, phase, log and
      cache-tag request carries the token set at registration; at most one heartbeat is sent
      after the heartbeat was stopped; the loop's counter is that of `Turns` over the turns it has
      completed, and it is at its end exactly if those turns stopped it; the build's requests are those of its plan, in order, and every turn that sends sends
      one heartbeat; and if the process ends before the build then either the heartbeat stream could
      not be opened or the loop has met, uncancelled, a turn that is fatal by `FatalAt`. */
  lemma Interleavings(env: Env, args: BuildArgs, l: Link, choices: seq<Choice>)
    requires Registered(l)
    ensures var s := Reached(l.jobToken, BuildPlan(env, args, l), choices);
            && (forall i | 0 <= i < |s.seen| :: CarriesToken(s.seen[i], l.jobToken))
            && BeatsAfterStop(s.seen) <= 1
            && s.retries == Turns(s.beats).retries
            && Turns(s.beats).exit == (if s.place == Ended then Stopped else Running)
            && 0 <= s.retries <= 3
            && s.pos <= |BuildPlan(env, args, l)| && BuildRequests(s.seen) == BuildPlan(env, args, l)[..s.pos]
            && Heartbeats(s.seen) == Turns(s.beats).sends + (if s.place == Receiving then 1 else 0)
            && (s.over && s.pos < |BuildPlan(env, args, l)| && s.place != Opening ==>
                  s.place == Top && !s.cancelled && FatalNext(s.beats))
  {
    hide Reached, RunResult;
    PlanCarriesToken(env, args, l);
    var plan := BuildPlan(env, args, l);
    ReachedKeeps(l.jobToken, plan, choices);
    var s := Reached(l.jobToken, plan, choices);
    RetriesBounded(s.beats);
    if s.over && s.pos < |plan| && s.place != Opening {
      FatalNextMeans(s.beats);
    }
  }

  /** How many steps of its own the heartbeat goroutine still takes once it is cancelled. */
  function StepsLeft(place: Place): nat {
    match place
    case NotStarted => 5
    case Sending => 4
    case Receiving => 3
    case Opening => 2
    case Sleeping => 2
    case Top => 1
    case Ended => 0
  }

  function OwnSteps(choices: seq<Choice>): nat {
    if choices == [] then 0
    else OwnSteps(choices[..|choices| - 1]) + if choices[|choices| - 1].Beat? then 1 else 0
  }

  /** After the stop the loop comes to its end within four steps of its own, however the steps of
      the build fall between them. */
  lemma {:induction false} StopsSoon(token: string, plan: seq<Event>, s: System, choices: seq<Choice>)
    requires s.cancelled && s.registered && s.place != NotStarted
    ensures var t := After(token, plan, s, choices);
            && t.cancelled && t.registered && t.place != NotStarted
            && (t.over || t.place == Ended || StepsLeft(t.place) + OwnSteps(choices) <= StepsLeft(s.place) <= 4)
    decreases |choices|
  {
    if choices != [] {
      StopsSoon(token, plan, s, choices[..|choices| - 1]);
    }
  }

  /** Unless it is cancelled, the next turn is the fatal one, whatever it would have met. */
  ghost predicate FatalNext(beats: seq<Beat>) {
    forall b: Beat | !b.Cancelled? :: FatalAt(beats + [b], |beats|)
  }

  lemma FatalNextMeans(beats: seq<Beat>)
    requires Turns(beats).exit == Running && Turns(beats).retries == 0
    ensures FatalNext(beats)
  {
    hide Turns, FatalAt;
    forall b: Beat | !b.Cancelled? ensures FatalAt(beats + [b], |beats|) {
      assert (beats + [b])[..|beats|] == beats;
      FatalAtMeans(beats + [b], |beats|);
    }
  }

  lemma {:induction false} RetriesBounded(beats: seq<Beat>)
    ensures 0 <= Turns(beats).retries <= 3
    decreases |beats|
  {
    if beats != [] {
      RetriesBounded(beats[..|beats| - 1]);
      CounterIsNegatives(beats[..|beats| - 1]);
    }
  }

  /** Registration succeeds exactly if the manager answers and knows the kind of package. Then its
      arguments are those of the answer, as they are, and the client is ready for a build. The token
      is set by every answer, and no answer means an error and no token. */
  lemma RegistrationSetsToken(env: Env, jwt: string)
    ensures var r := GrpcBuild.RegisterResult(env, Link(Waiting, "", 0, 0, []), jwt);
            var answer := env.register(0);
            && r.link.trace == [RegisterReq(jwt)]
            && r.link.jobToken == (if answer.Ok? then answer.value.jwt else "")
            && (r.out.Returned? <==> answer.Ok? && answer.value.packageKnown)
            && (r.out.Returned? ==> r.out.value == answer.value.args && Registered(r.link))
            && (answer.Err? ==> r.out == Failed(Plain(answer.message)))
            && !r.out.Halted?
  {
  }
}
