/** A command that is killed when it has been idle for too long.

    The copying goroutine appends what the command prints to a buffer and then notifies the
    supervisor over a channel of capacity one; the supervisor selects among a notification, the
    idle deadline and the end of the command. Each choice below is one atomic step. */
module IdleSupervisor {
  import opened JsonScanner
  import opened Framing
  import opened Outside

  /** Three minutes, in seconds. */
  const IDLE_TIMEOUT: nat := 180

  const CAPACITY: nat := 1

  /** What the supervisor returned, and when. */
  datatype Verdict =
    | Running
    | Finished(data: Bytes, err: Option<string>)
    | WriteFailed(data: Bytes, message: string)
    | Killed(data: Bytes, at: nat)
    | Fatal  // the kill itself failed

  datatype State = State(
    buf: Bytes,
    channel: seq<Option<string>>,      // notifications sent and not yet received
    sending: Option<Option<string>>,   // a notification the copying goroutine is about to send
    done: Option<Option<string>>,      // the end of the command, once it has ended
    now: nat,
    deadline: nat,
    verdict: Verdict,
    writes: seq<Bytes>,                // everything written, piece by piece
    received: nat,                     // notifications received
    lastWrite: nat,                    // when the last piece was written
    turns: nat)                        // turns of the select loop

  const INITIAL := State([], [], None, None, 0, IDLE_TIMEOUT, Running, [], 0, 0, 0)

  datatype Choice =
    | Write(piece: Bytes, err: Option<string>)  // the copying goroutine appends a piece
    | Notify                                    // and sends its notification
    | Exit(result: Option<string>)              // the command ends, with its output copied
    | Tick(seconds: nat)
    | Receive                                   // the supervisor takes one of its three branches
    | TimeOut(killFails: bool)
    | Finish

  predicate Enabled(s: State, c: Choice) {
    match c
    case Write(_, _) => s.sending.None? && s.done.None?
    case Notify => s.sending.Some? && |s.channel| < CAPACITY
    case Exit(_) => s.sending.None? && s.done.None?
    case Tick(_) => true
    case Receive => s.verdict.Running? && s.channel != []
    case TimeOut(_) => s.verdict.Running? && s.deadline <= s.now
    case Finish => s.verdict.Running? && s.done.Some?
  }

  /** A choice that is not enabled changes nothing. */
  function Next(s: State, c: Choice): State {
    if !Enabled(s, c) then s
    else
      match c
      case Write(piece, err) =>
        s.(buf := s.buf + piece, sending := Some(err), writes := s.writes + [piece], lastWrite := s.now)
      case Notify => s.(channel := s.channel + [s.sending.value], sending := None)
      case Exit(result) => s.(done := Some(result))
      case Tick(n) => s.(now := s.now + n)
      case Receive =>
        var t := s.(channel := s.channel[1..], received := s.received + 1, turns := s.turns + 1);
        (match s.channel[0]
         case Some(m) => t.(verdict := WriteFailed(s.buf, m))
         case None => t.(deadline := s.now + IDLE_TIMEOUT))
      case TimeOut(killFails) =>
        s.(turns := s.turns + 1, verdict := if killFails then Fatal else Killed(s.buf, s.now))
      case Finish => s.(turns := s.turns + 1, verdict := Finished(s.buf, s.done.value))
  }

  /** Further choices from a state on. */
  function After(s: State, choices: seq<Choice>): State {
    if choices == [] then s
    else Next(After(s, choices[..|choices| - 1]), choices[|choices| - 1])
  }

  function Reached(choices: seq<Choice>): State {
    After(INITIAL, choices)
  }

  // ---------------------------------------------------------------- as an object

  /** The shared buffer and channels, changed in place by the two goroutines. */
  class Command {
    var buf: Bytes
    var channel: seq<Option<string>>
    var sending: Option<Option<string>>
    var done: Option<Option<string>>
    var now: nat
    var timeout: nat
    var verdict: Verdict
    ghost var writes: seq<Bytes>
    ghost var received: nat
    ghost var lastWrite: nat
    ghost var turns: nat

    constructor ()
      ensures View() == INITIAL
    {
      buf, channel, sending, done := [], [], None, None;
      now, timeout, verdict := 0, IDLE_TIMEOUT, Running;
      writes, received, lastWrite, turns := [], 0, 0, 0;
    }

    ghost function View(): State
      reads this
    {
      State(buf, channel, sending, done, now, timeout, verdict, writes, received, lastWrite, turns)
    }

    /** The copying goroutine: append, and then send as soon as there is room. */
    method WriterStep(c: Choice)
      requires c.Write? || c.Notify?
      modifies this
      ensures View() == Next(old(View()), c)
    {
      if c.Write? && sending.None? && done.None? {
        buf := buf + c.piece;
        sending := Some(c.err);
        writes, lastWrite := writes + [c.piece], now;
      } else if c.Notify? && sending.Some? && |channel| < CAPACITY {
        channel := channel + [sending.value];
        sending := None;
      }
    }

    /** The command and the clock. */
    method OutsideStep(c: Choice)
      requires c.Exit? || c.Tick?
      modifies this
      ensures View() == Next(old(View()), c)
    {
      if c.Tick? {
        now := now + c.seconds;
      } else if sending.None? && done.None? {
        done := Some(c.result);
      }
    }

    /** One turn of the select loop, taking the branch `c`. */
    method SelectStep(c: Choice)
      requires c.Receive? || c.TimeOut? || c.Finish?
      modifies this
      ensures View() == Next(old(View()), c)
    {
      if verdict != Running {
        return;
      }
      match c
      case Receive =>
        if channel != [] {
          var err := channel[0];
          channel := channel[1..];
          received, turns := received + 1, turns + 1;
          if err.Some? {
            verdict := WriteFailed(buf, err.value);
          } else {
            timeout := now + IDLE_TIMEOUT;
          }
        }
      case TimeOut(killFails) =>
        if timeout <= now {
          turns := turns + 1;
          verdict := if killFails then Fatal else Killed(buf, now);
        }
      case Finish =>
        if done.Some? {
          turns := turns + 1;
          verdict := Finished(buf, done.value);
        }
    }

    method Run(choices: seq<Choice>)
      requires View() == INITIAL
      modifies this
      ensures View() == Reached(choices)
    {
      hide Next;
      for i := 0 to |choices|
        invariant View() == Reached(choices[..i])
      {
        assert choices[..i + 1][..i] == choices[..i];
        var c := choices[i];
        if c.Write? || c.Notify? {
          WriterStep(c);
        } else if c.Exit? || c.Tick? {
          OutsideStep(c);
        } else {
          SelectStep(c);
        }
      }
      assert choices[..|choices|] == choices;
    }
  }

  // ---------------------------------------------------------------- what always holds

  function Outstanding(s: State): nat {
    |s.channel| + if s.sending.Some? then 1 else 0
  }

  ghost predicate Accounted(s: State) {
    && |s.writes| == s.received + Outstanding(s)
    && |s.channel| <= CAPACITY
    && s.buf == Flatten(s.writes)
    && IDLE_TIMEOUT <= s.deadline <= s.now + IDLE_TIMEOUT
    && s.lastWrite <= s.now
    && (s.done.Some? ==> s.sending.None?)
    && s.turns == s.received + (if s.verdict.Running? || s.verdict.WriteFailed? then 0 else 1)
  }

  /** Unless a failed write was reported, a notification that was received had the deadline set
      after the write that it reports. */
  ghost predicate DeadlineFollowsWrites(s: State) {
    !s.verdict.WriteFailed? && Outstanding(s) == 0 ==> s.lastWrite + IDLE_TIMEOUT <= s.deadline
  }

  /** What a return says about the moment of the return. */
  ghost predicate VerdictJustified(s: State) {
    match s.verdict
    case Running => true
    case Fatal => true
    case Finished(data, err) => s.done == Some(err) && data == Flatten(s.writes) && s.sending.None?
    case WriteFailed(data, _) => data <= s.buf
    case Killed(data, at) => data <= s.buf && s.deadline <= at <= s.now
  }

  lemma FlattenSnoc(writes: seq<Bytes>, piece: Bytes)
    ensures Flatten(writes + [piece]) == Flatten(writes) + piece
  {
    assert (writes + [piece])[..|writes|] == writes;
  }

  lemma NextKeeps(s: State, c: Choice)
    requires Accounted(s) && DeadlineFollowsWrites(s) && VerdictJustified(s)
    ensures var t := Next(s, c); Accounted(t) && DeadlineFollowsWrites(t) && VerdictJustified(t)
  {
    hide Flatten;
    if Enabled(s, c) && c.Write? {
      FlattenSnoc(s.writes, c.piece);
    }
  }

  lemma InitialKeeps()
    ensures Accounted(INITIAL) && DeadlineFollowsWrites(INITIAL) && VerdictJustified(INITIAL)
  {
    assert Flatten([]) == [];
  }

  lemma {:induction false} ReachedKeeps(choices: seq<Choice>)
    ensures var s := Reached(choices); Accounted(s) && DeadlineFollowsWrites(s) && VerdictJustified(s)
    decreases |choices|
  {
    hide Next, Accounted, DeadlineFollowsWrites, VerdictJustified;
    if choices == [] {
      InitialKeeps();
    } else {
      ReachedKeeps(choices[..|choices| - 1]);
      NextKeeps(Reached(choices[..|choices| - 1]), choices[|choices| - 1]);
    }
  }

  /** In every interleaving: the writes whose notification was not received yet are the one in
      the channel and the one about to be sent, so at most two; a return because the command
      ended hands back everything that was ever written; and the loop never takes more turns
      than there were writes, plus the one that returns. */
  lemma Accounting(choices: seq<Choice>)
    ensures var s := Reached(choices);
            && |s.writes| - s.received == Outstanding(s) <= 2
            && s.writes == Pieces(choices)
            && (s.verdict.Finished? ==> s.verdict.data == Flatten(s.writes) && s.sending.None?)
            && s.turns <= |s.writes| + 1
  {
    hide Reached, Pieces;
    ReachedKeeps(choices);
    WritesArePieces(choices);
  }

  /** When the last clean notification was received, or the start. */
  function LastReceived(choices: seq<Choice>): nat {
    if choices == [] then 0
    else
      var s, c := Reached(choices[..|choices| - 1]), choices[|choices| - 1];
      if c.Receive? && Enabled(s, c) && s.channel[0].None? then s.now else LastReceived(choices[..|choices| - 1])
  }

  lemma {:induction false} DeadlineIs(choices: seq<Choice>)
    ensures Reached(choices).deadline == LastReceived(choices) + IDLE_TIMEOUT
    decreases |choices|
  {
    if choices != [] {
      DeadlineIs(choices[..|choices| - 1]);
    }
  }

  /** A kill is possible exactly when the supervisor has not returned and three minutes have
      passed since the last notification was received (or since the start); and if then no
      notification is outstanding the command wrote nothing in that time. */
  lemma KillOnlyWhenIdle(choices: seq<Choice>, killFails: bool)
    ensures var s := Reached(choices);
            && (Enabled(s, TimeOut(killFails)) <==> s.verdict.Running? && LastReceived(choices) + 180 <= s.now)
            && (Enabled(s, TimeOut(killFails)) && Outstanding(s) == 0 ==> s.lastWrite <= LastReceived(choices))
  {
    hide Reached, LastReceived;
    ReachedKeeps(choices);
    DeadlineIs(choices);
  }

  // ---------------------------------------------------------------- how it returns

  /** The errors of the writes, in the order of the writes. */
  function WriteErrors(choices: seq<Choice>): seq<Option<string>> {
    if choices == [] then []
    else
      var before, c := choices[..|choices| - 1], choices[|choices| - 1];
      if c.Write? && Enabled(Reached(before), c) then WriteErrors(before) + [c.err] else WriteErrors(before)
  }

  /** The pieces that were written, in order. */
  function Pieces(choices: seq<Choice>): seq<Bytes> {
    if choices == [] then []
    else
      var before, c := choices[..|choices| - 1], choices[|choices| - 1];
      if c.Write? && Enabled(Reached(before), c) then Pieces(before) + [c.piece] else Pieces(before)
  }

  /** How the command ended, if it has: its first end, once all its output was handed on. */
  function EndOf(choices: seq<Choice>): Option<Option<string>> {
    if choices == [] then None
    else
      var before, c := choices[..|choices| - 1], choices[|choices| - 1];
      if c.Exit? && Enabled(Reached(before), c) then Some(c.result) else EndOf(before)
  }

  lemma {:induction false} DoneIsEnd(choices: seq<Choice>)
    ensures Reached(choices).done == EndOf(choices)
    decreases |choices|
  {
    hide Enabled;
    if choices != [] {
      var before, c := choices[..|choices| - 1], choices[|choices| - 1];
      DoneIsEnd(before);
      assert Reached(choices) == Next(Reached(before), c);
    }
  }

  lemma {:induction false} WritesArePieces(choices: seq<Choice>)
    ensures Reached(choices).writes == Pieces(choices)
    decreases |choices|
  {
    hide Enabled;
    if choices != [] {
      var before, c := choices[..|choices| - 1], choices[|choices| - 1];
      WritesArePieces(before);
      assert Reached(choices) == Next(Reached(before), c);
    }
  }

  /** Notifications arrive in the order of the writes, each with the error of its write: those
      received, then those on the way. All that were received were free of errors, but for one
      that made the supervisor return. */
  ghost predicate InOrder(s: State, errors: seq<Option<string>>) {
    && |errors| == |s.writes| && s.received <= |errors|
    && errors[s.received..] == s.channel + (if s.sending.Some? then [s.sending.value] else [])
    && (forall i | 0 <= i < s.received - 1 :: errors[i].None?)
    && (s.received > 0 ==> (errors[s.received - 1].Some? <==> s.verdict.WriteFailed?))
    && (s.verdict.WriteFailed? ==> s.received > 0 && errors[s.received - 1] == Some(s.verdict.message))
  }

  lemma InOrderNext(s: State, errors: seq<Option<string>>, c: Choice)
    requires InOrder(s, errors) && Accounted(s)
    ensures InOrder(Next(s, c), if c.Write? && Enabled(s, c) then errors + [c.err] else errors)
  {
    hide Flatten;
    if Enabled(s, c) && c.Receive? {
      assert errors[s.received] == errors[s.received..][0] == s.channel[0];
      assert errors[s.received + 1..] == errors[s.received..][1..];
      var pending := if s.sending.Some? then [s.sending.value] else [];
      assert (s.channel + pending)[1..] == s.channel[1..] + pending;
    }
  }

  lemma {:induction false} NotificationsInOrder(choices: seq<Choice>)
    ensures InOrder(Reached(choices), WriteErrors(choices))
    decreases |choices|
  {
    hide Next, InOrder, Enabled, Accounted;
    if choices == [] {
      InOrderAtStart();
    } else {
      var before := choices[..|choices| - 1];
      NotificationsInOrder(before);
      ReachedKeeps(before);
      InOrderNext(Reached(before), WriteErrors(before), choices[|choices| - 1]);
    }
  }

  lemma InOrderAtStart()
    ensures InOrder(INITIAL, [])
  {
  }

  /** At its k-th choice the supervisor returns `v`, with all that was written by then: because
      three minutes had passed without a notification, because the command had ended, or because
      the next notification reported an error. */
  ghost predicate ReturnsAt(choices: seq<Choice>, k: int, v: Verdict) {
    && 0 <= k < |choices|
    && var before := choices[..k];
       var s := Reached(before);
       var output := Flatten(Pieces(before));
       s.verdict.Running? &&
       match choices[k]
       case TimeOut(killFails) =>
         LastReceived(before) + 180 <= s.now && v == if killFails then Fatal else Killed(output, s.now)
       case Finish => EndOf(before).Some? && v == Finished(output, EndOf(before).value)
       case Receive =>
         && s.channel != [] && s.received < |WriteErrors(before)|
         && var err := WriteErrors(before)[s.received];
            err.Some? && v == WriteFailed(output, err.value)
       case _ => false
  }

  /** One choice makes a running supervisor return `v` exactly if `ReturnsAt` says so. */
  lemma ReturnStep(choices: seq<Choice>, v: Verdict)
    requires choices != [] && !v.Running?
    requires Reached(choices[..|choices| - 1]).verdict.Running?
    ensures Reached(choices).verdict == v <==> ReturnsAt(choices, |choices| - 1, v)
  {
    var before, c := choices[..|choices| - 1], choices[|choices| - 1];
    assert Reached(choices) == Next(Reached(before), c);
    hide Reached, WriteErrors, Pieces, EndOf, LastReceived, Flatten;
    SeenFromOutside(before);
  }

  /** What the choices alone say about the buffer, the deadline and the next notification. */
  lemma SeenFromOutside(choices: seq<Choice>)
    ensures var s := Reached(choices);
            && s.buf == Flatten(Pieces(choices))
            && s.deadline == LastReceived(choices) + 180
            && s.done == EndOf(choices)
            && (s.channel != [] ==> s.received < |WriteErrors(choices)| && WriteErrors(choices)[s.received] == s.channel[0])
  {
    hide Reached, WriteErrors, Pieces, EndOf, LastReceived, Flatten;
    ReachedKeeps(choices);
    DeadlineIs(choices);
    NotificationsInOrder(choices);
    WritesArePieces(choices);
    DoneIsEnd(choices);
    var s := Reached(choices);
    if s.channel != [] {
      assert WriteErrors(choices)[s.received] == WriteErrors(choices)[s.received..][0] == s.channel[0];
    }
  }

  /** The supervisor has returned `v` exactly if it did so at some choice. */
  lemma {:induction false} ReturnsExactly(choices: seq<Choice>, v: Verdict)
    requires !v.Running?
    ensures Reached(choices).verdict == v <==> exists k :: ReturnsAt(choices, k, v)
    decreases |choices|
  {
    hide Next, Enabled, LastReceived, WriteErrors, Pieces, EndOf, Flatten, ReturnsAt;
    if choices == [] {
      NoReturnAtStart(v);
    } else {
      var n := |choices| - 1;
      var before := choices[..n];
      ReturnsExactly(before, v);
      forall k | 0 <= k < n ensures ReturnsAt(choices, k, v) <==> ReturnsAt(before, k, v) {
        SameReturn(choices, n, k, v);
      }
      forall k | ReturnsAt(choices, k, v) ensures 0 <= k <= n {
        ReturnInRange(choices, k, v);
      }
      forall k | ReturnsAt(before, k, v) ensures 0 <= k < n {
        ReturnInRange(before, k, v);
      }
      if Reached(before).verdict.Running? {
        ReturnStep(choices, v);
      } else {
        VerdictStays(Reached(before), choices[n]);
        NoSecondReturn(choices, v);
      }
    }
  }

  lemma NoReturnAtStart(v: Verdict)
    ensures forall k :: !ReturnsAt([], k, v)
  {
  }

  lemma SameReturn(choices: seq<Choice>, n: nat, k: nat, v: Verdict)
    requires k < n <= |choices|
    ensures ReturnsAt(choices, k, v) <==> ReturnsAt(choices[..n], k, v)
  {
    hide Reached, LastReceived, WriteErrors, Pieces, EndOf, Flatten;
    assert choices[..n][..k] == choices[..k];
  }

  lemma ReturnInRange(choices: seq<Choice>, k: int, v: Verdict)
    requires ReturnsAt(choices, k, v)
    ensures 0 <= k < |choices|
  {
    hide Reached, LastReceived, WriteErrors, Pieces, EndOf, Flatten;
  }

  lemma NoSecondReturn(choices: seq<Choice>, v: Verdict)
    requires choices != [] && !Reached(choices[..|choices| - 1]).verdict.Running?
    ensures !ReturnsAt(choices, |choices| - 1, v)
  {
    hide Reached, LastReceived, WriteErrors, Pieces, EndOf, Flatten;
  }

  lemma VerdictStays(s: State, c: Choice)
    requires !s.verdict.Running?
    ensures Next(s, c).verdict == s.verdict
  {
  }

  /** Before the supervisor returns, a blocked copying goroutine finds it able to receive; once
      the command has ended, nothing is blocked and at most one notification is left. */
  lemma NeverStuck(choices: seq<Choice>)
    ensures var s := Reached(choices);
            && (s.verdict.Running? && s.sending.Some? ==> Enabled(s, Notify) || Enabled(s, Receive))
            && (s.verdict.Running? && s.done.Some? ==>
                  Enabled(s, Finish) && s.sending.None? && |s.writes| - s.received <= 1)
  {
    hide Reached;
    ReachedKeeps(choices);
  }

  /** The copying goroutine is blocked, and no step but the clock's is possible any more. */
  ghost predicate Stranded(s: State) {
    !s.verdict.Running? && s.sending.Some? && forall c :: Enabled(s, c) ==> c.Tick?
  }

  /** After a return, for whatever reason, the copying goroutine is blocked for good exactly if
      two of its notifications had not been received; no return because the command ended leaves
      it so. */
  lemma StrandedExactly(choices: seq<Choice>)
    ensures var s := Reached(choices);
            && (!s.verdict.Running? ==> (Stranded(s) <==> |s.writes| - s.received == 2))
            && (s.verdict.Finished? ==> !Stranded(s))
  {
    hide Reached;
    ReachedKeeps(choices);
    var s := Reached(choices);
    if s.sending.Some? && s.channel == [] {
      assert Enabled(s, Notify);
    }
  }

  /** Nothing that happens later unblocks it. */
  lemma {:induction false} StrandedForever(s: State, choices: seq<Choice>)
    requires Stranded(s)
    ensures var t := After(s, choices);
            Stranded(t) && t == s.(now := t.now)
    decreases |choices|
  {
    if choices != [] {
      StrandedForever(s, choices[..|choices| - 1]);
      var t, c := After(s, choices[..|choices| - 1]), choices[|choices| - 1];
      assert Enabled(t, c) ==> c.Tick?;
      SameEnabled(t, Next(t, c));
    }
  }

  lemma SameEnabled(s: State, t: State)
    requires !s.verdict.Running? && t == s.(now := t.now)
    ensures forall c :: Enabled(s, c) <==> Enabled(t, c)
  {
  }

  /** It does happen, after a kill. */
  lemma KillCanStrandTheWriter()
    ensures exists choices :: Reached(choices).verdict.Killed? && Stranded(Reached(choices))
  {
    var c1 := [Write([], None)];
    var c2 := c1 + [Notify];
    var c3 := c2 + [Write([], None)];
    var c4 := c3 + [Tick(IDLE_TIMEOUT)];
    var c5 := c4 + [TimeOut(false)];
    assert c1[..0] == [] && c2[..1] == c1 && c3[..2] == c2 && c4[..3] == c3 && c5[..4] == c4;
    assert Reached(c1[..0]) == INITIAL;
    var s1, s2, s3, s4 := Reached(c1), Reached(c2), Reached(c3), Reached(c4);
    assert s1 == Next(INITIAL, Write([], None));
    assert s2 == Next(s1, Notify);
    assert s3 == Next(s2, Write([], None));
    assert s4 == Next(s3, Tick(IDLE_TIMEOUT));
    var s := Reached(c5);
    assert s == Next(s4, TimeOut(false));
    assert s.verdict.Killed? && Stranded(s);
  }
}
