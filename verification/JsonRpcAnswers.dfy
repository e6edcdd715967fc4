/**
  mcpbridge/client.go, jsonrpcConn: where the answer of a call comes from, over whole runs of the
  connection. Whoever takes a call's pending entry decides its answer.
 */
module JsonRpcAnswers {
  import opened Wrappers
  import opened JsonRpc

  // ----- Prefixes of a run -----

  lemma {:induction false} RunSplits(s: Conn, a: seq<Step>, b: seq<Step>)
    requires CanRun(s, a + b)
    ensures CanRun(s, a) && CanRun(After(s, a), b) && After(s, a + b) == After(After(s, a), b)
    decreases |a|
  {
    hide Enabled, Do;
    if a == [] {
      assert a + b == b;
    } else {
      assert (a + b)[1..] == a[1..] + b;
      RunSplits(Do(s, a[0]), a[1..], b);
    }
  }

  /** The state before step k. */
  function Before(steps: seq<Step>, k: nat): Conn
    requires CanRun(INITIAL, steps) && k <= |steps|
  {
    assert CanRun(INITIAL, steps[..k]) by {
      assert steps[..k] + steps[k..] == steps;
      RunSplits(INITIAL, steps[..k], steps[k..]);
    }
    After(INITIAL, steps[..k])
  }

  lemma {:induction false} StepAt(steps: seq<Step>, k: nat)
    requires CanRun(INITIAL, steps) && k < |steps|
    ensures Enabled(Before(steps, k), steps[k]) && Before(steps, k + 1) == Do(Before(steps, k), steps[k])
    ensures Inv(Before(steps, k))
  {
    hide Enabled, Do, Inv;
    var front := steps[..k];
    assert front + steps[k..] == steps;
    RunSplits(INITIAL, front, steps[k..]);
    var s := After(INITIAL, front);
    assert steps[k..][0] == steps[k];
    assert steps[..k + 1] + steps[k + 1..] == steps && front + [steps[k]] == steps[..k + 1];
    RunSplits(INITIAL, steps[..k + 1], steps[k + 1..]);
    RunSplits(INITIAL, front, [steps[k]]);
    assert After(s, [steps[k]]) == After(Do(s, steps[k]), [steps[k]][1..]) && [steps[k]][1..] == [];
    InitialInv();
    RunKeepsInv(INITIAL, front);
  }

  lemma {:induction false} Ends(steps: seq<Step>)
    requires CanRun(INITIAL, steps)
    ensures Before(steps, 0) == INITIAL && Before(steps, |steps|) == After(INITIAL, steps)
    ensures Inv(After(INITIAL, steps))
  {
    hide Enabled, Do, Inv, INITIAL;
    assert steps[..0] == [] && steps[..|steps|] == steps;
    InitialInv();
    RunKeepsInv(INITIAL, steps);
  }

  // ----- Why pending calls fail -----

  /** The input ends or cannot be read. */
  predicate EndsInput(step: Step) {
    step.ReadFailed? || ((step.ReadResponse? || step.ReadOther? || step.ReadOversized?) && step.eof)
  }

  predicate Brings(step: Step, cause: Cause) {
    match cause
    case Oversized => step.ReadOversized?
    case ReadFailure => EndsInput(step)
    case ConnectionClosed => step.Close?
  }

  /** The read loop will read no more. */
  predicate Doomed(s: Conn) {
    || s.reader.MustClose? || s.reader.Closing? || s.reader.Stopped?
    || ((s.reader.Holding? || s.reader.Failing?) && s.reader.eof)
  }

  /** The lock is held to fail the pending calls for this cause. */
  predicate HeldFor(lock: Lock, cause: Cause) {
    match cause
    case Oversized => lock.HeldForOversize?
    case ReadFailure => lock.HeldByReader?
    case ConnectionClosed => lock.HeldByCloser?
  }

  predicate Blames(s: Conn, cause: Cause) {
    HeldFor(s.lock, cause) || (cause.ReadFailure? && Doomed(s) && !s.reader.Stopped?)
  }

  lemma {:induction false} BlameStep(s: Conn, step: Step, cause: Cause)
    requires Inv(s) && Enabled(s, step) && Blames(Do(s, step), cause)
    ensures Blames(s, cause) || Brings(step, cause)
  {
    hide CallsOk, ChannelsOwned, EntriesOk, IdsOk;
  }

  lemma {:induction false} DoomStep(s: Conn, step: Step)
    requires Inv(s) && Enabled(s, step)
    ensures Doomed(s) ==> Doomed(Do(s, step))
    ensures EndsInput(step) ==> Doomed(Do(s, step))
  {
    hide CallsOk, ChannelsOwned, EntriesOk, IdsOk;
  }

  lemma {:induction false} DoomedReadsNothing(s: Conn, step: Step)
    requires Enabled(s, step) && Doomed(s)
    ensures !step.ReadResponse? && !step.ReadOther? && !step.ReadOversized? && !step.ReadFailed?
  {
  }

  lemma {:induction false} StopStep(s: Conn, step: Step)
    requires Inv(s) && Enabled(s, step)
    ensures Do(s, step).reader.Stopped? ==> s.reader.Stopped? || s.closed
    ensures s.closed || step.Close? || step.ReaderClose? ==> Do(s, step).closed
  {
    hide CallsOk, ChannelsOwned, EntriesOk, IdsOk;
  }

  lemma {:induction false} BlameIsBrought(steps: seq<Step>, k: nat, cause: Cause)
    requires CanRun(INITIAL, steps) && k <= |steps| && Blames(Before(steps, k), cause)
    ensures exists j :: 0 <= j < k && Brings(steps[j], cause)
    decreases k
  {
    hide Enabled, Do, Inv, Blames, CanRun, Before, Brings;
    if k == 0 {
      Ends(steps);
      NoBlame(cause);
    } else {
      StepAt(steps, k - 1);
      BlameStep(Before(steps, k - 1), steps[k - 1], cause);
      if !Brings(steps[k - 1], cause) {
        BlameIsBrought(steps, k - 1, cause);
      }
    }
  }

  lemma {:induction false} NoBlame(cause: Cause)
    ensures !Blames(INITIAL, cause)
  {
  }

  // ----- Who decides an answer -----

  /** The step takes the call's pending entry, to answer it with the response. */
  predicate Decides(s: Conn, step: Step, id: int, r: Response) {
    && id in s.pending
    && match r
       case Reply(i, body) => i == id && step.ReadResponse? && step.id == id && step.body == body
       case Failure(i, cause) => i == id && step == FailOne(id) && HeldFor(s.lock, cause)
  }

  /** The response is on its way to the call, or was sent to it. */
  predicate Addressed(s: Conn, id: int, chan: nat, r: Response) {
    && Owns(s, id, chan) && chan in s.sent
    && (r in s.sent[chan] || (Held(s, chan) && s.reader.response == r))
  }

  /** It is the only one, now and later. */
  predicate Settled(s: Conn, id: int, chan: nat, r: Response) {
    && Owns(s, id, chan) && chan in s.sent && id !in s.pending
    && (s.sent[chan] == [r] || (s.sent[chan] == [] && Held(s, chan) && s.reader.response == r))
  }

  lemma {:induction false} DecidedSettles(s: Conn, step: Step, id: int, r: Response)
    requires Inv(s) && Enabled(s, step) && Decides(s, step, id, r)
    ensures Settled(Do(s, step), id, s.pending[id], r)
  {
    hide IdsOk;
    assert Owns(s, id, s.pending[id]) && CallOk(s, id, s.pending[id]);
  }

  /** Only a registration could make a settled call pending, and only a new channel could take its place. */
  lemma {:induction false} SettledCaller(s: Conn, step: Step, id: int, chan: nat, r: Response)
    requires ByCaller(step) && Inv(s) && Enabled(s, step) && Settled(s, id, chan, r)
    ensures !(step.Register? && step.id == id) && !(step.MakeChan? && step.id == id)
    ensures chan < s.nextChan && id <= s.nextId
  {
    hide LockOk, EntriesOk;
    assert CallOk(s, id, chan);
  }

  lemma {:induction false} SettledStepCaller(s: Conn, step: Step, id: int, chan: nat, r: Response)
    requires ByCaller(step) && Inv(s) && Enabled(s, step) && Settled(s, id, chan, r)
    ensures Settled(Do(s, step), id, chan, r)
  {
    SettledCaller(s, step, id, chan, r);
    hide Inv;
  }

  lemma {:induction false} SettledStepReader(s: Conn, step: Step, id: int, chan: nat, r: Response)
    requires ByReader(step) && Inv(s) && Enabled(s, step) && Settled(s, id, chan, r)
    ensures Settled(Do(s, step), id, chan, r)
  {
    hide LockOk, IdsOk;
    assert CallOk(s, id, chan);
    if step.ReadResponse? && step.id in s.pending {
      assert Owns(s, step.id, s.pending[step.id]);
    }
  }

  lemma {:induction false} SettledStepLocker(s: Conn, step: Step, id: int, chan: nat, r: Response)
    requires ByLocker(step) && Inv(s) && Enabled(s, step) && Settled(s, id, chan, r)
    ensures Settled(Do(s, step), id, chan, r)
  {
    hide IdsOk;
    assert CallOk(s, id, chan);
    if step.FailOne? {
      assert Owns(s, step.id, s.pending[step.id]);
    }
  }

  lemma {:induction false} SettledStep(s: Conn, step: Step, id: int, chan: nat, r: Response)
    requires Inv(s) && Enabled(s, step) && Settled(s, id, chan, r)
    ensures Settled(Do(s, step), id, chan, r)
  {
    hide *;
    Taker(step);
    if ByCaller(step) {
      SettledStepCaller(s, step, id, chan, r);
    } else if ByReader(step) {
      SettledStepReader(s, step, id, chan, r);
    } else {
      SettledStepLocker(s, step, id, chan, r);
    }
  }

  lemma {:induction false} AddressedStepCaller(s: Conn, step: Step, id: int, chan: nat, r: Response)
    requires ByCaller(step) && Inv(s) && Enabled(s, step) && Addressed(Do(s, step), id, chan, r)
    ensures Addressed(s, id, chan, r)
  {
    hide LockOk, IdsOk;
    OwnedBefore(s, step, id, chan);
    assert s.reader.Holding? ==> Owns(s, s.reader.response.id, s.reader.chan);
  }

  lemma {:induction false} AddressedStepReader(s: Conn, step: Step, id: int, chan: nat, r: Response)
    requires ByReader(step) && Inv(s) && Enabled(s, step) && Addressed(Do(s, step), id, chan, r)
    ensures Addressed(s, id, chan, r) || Decides(s, step, id, r)
  {
    hide LockOk, IdsOk;
    OwnedBefore(s, step, id, chan);
    if step.ReadResponse? && step.id in s.pending {
      assert Owns(s, step.id, s.pending[step.id]);
    }
  }

  lemma {:induction false} AddressedStepLocker(s: Conn, step: Step, id: int, chan: nat, r: Response)
    requires ByLocker(step) && Inv(s) && Enabled(s, step) && Addressed(Do(s, step), id, chan, r)
    ensures Addressed(s, id, chan, r) || Decides(s, step, id, r)
  {
    hide IdsOk;
    OwnedBefore(s, step, id, chan);
    if step.FailOne? {
      assert Owns(s, step.id, s.pending[step.id]);
    }
  }

  lemma {:induction false} AddressedStep(s: Conn, step: Step, id: int, chan: nat, r: Response)
    requires Inv(s) && Enabled(s, step) && Addressed(Do(s, step), id, chan, r)
    ensures Addressed(s, id, chan, r) || Decides(s, step, id, r)
  {
    hide *;
    Taker(step);
    if ByCaller(step) {
      AddressedStepCaller(s, step, id, chan, r);
    } else if ByReader(step) {
      AddressedStepReader(s, step, id, chan, r);
    } else {
      AddressedStepLocker(s, step, id, chan, r);
    }
  }

  // ----- Over whole runs -----

  /** Step k of the run decides the answer of the call. */
  predicate DecidedAt(steps: seq<Step>, k: nat, id: int, r: Response)
    requires CanRun(INITIAL, steps)
  {
    k < |steps| && Decides(Before(steps, k), steps[k], id, r)
  }

  lemma {:induction false} StaysSettled(steps: seq<Step>, k: nat, n: nat, id: int, chan: nat, r: Response)
    requires CanRun(INITIAL, steps) && k <= n <= |steps| && Settled(Before(steps, k), id, chan, r)
    ensures Settled(Before(steps, n), id, chan, r)
    decreases n
  {
    hide Enabled, Do, Inv, Settled, CanRun, Before;
    if k < n {
      StaysSettled(steps, k, n - 1, id, chan, r);
      StepAt(steps, n - 1);
      SettledStep(Before(steps, n - 1), steps[n - 1], id, chan, r);
    }
  }

  lemma {:induction false} AddressedIsDecided(steps: seq<Step>, n: nat, id: int, chan: nat, r: Response)
    requires CanRun(INITIAL, steps) && n <= |steps| && Addressed(Before(steps, n), id, chan, r)
    ensures exists k :: 0 <= k < n && DecidedAt(steps, k, id, r)
    decreases n
  {
    hide Enabled, Do, Inv, Addressed, CanRun, Before, Decides;
    if n == 0 {
      Ends(steps);
      NothingAddressed(id, chan, r);
    } else {
      StepAt(steps, n - 1);
      AddressedStep(Before(steps, n - 1), steps[n - 1], id, chan, r);
      if Decides(Before(steps, n - 1), steps[n - 1], id, r) {
        assert DecidedAt(steps, n - 1, id, r);
      } else {
        AddressedIsDecided(steps, n - 1, id, chan, r);
      }
    }
  }

  lemma {:induction false} NothingAddressed(id: int, chan: nat, r: Response)
    ensures !Addressed(INITIAL, id, chan, r)
  {
  }

  /** The call has returned with this outcome. */
  predicate Returns(s: Conn, id: int, o: Outcome) {
    InPhase(s, id, Returned(o))
  }

  /**
    A response that is read while its call is pending, and a failure that a holder of the lock sends, is
    the only message ever sent on the call's channel, and all that the call can receive.
   */
  lemma {:induction false} DecidedIsSent(steps: seq<Step>, k: nat, id: int, r: Response)
    requires CanRun(INITIAL, steps) && DecidedAt(steps, k, id, r)
    ensures var s, chan := After(INITIAL, steps), Before(steps, k).pending[id];
            && Owns(s, id, chan) && chan in s.sent
            && (s.sent[chan] == [r] || (s.sent[chan] == [] && Held(s, chan) && s.reader.response == r))
            && forall other :: Returns(s, id, Got(other)) ==> other == r
  {
    hide Enabled, Do, CanRun, Before, INITIAL;
    var chan := Before(steps, k).pending[id];
    StepAt(steps, k);
    DecidedSettles(Before(steps, k), steps[k], id, r);
    StaysSettled(steps, k + 1, |steps|, id, chan, r);
    Ends(steps);
    var s := After(INITIAL, steps);
    assert CallOk(s, id, chan);
    hide Inv;
  }

  /** Every message that is sent to a call was decided by one step. */
  lemma {:induction false} SentIsDecided(steps: seq<Step>, id: int, chan: nat, r: Response)
    requires CanRun(INITIAL, steps)
    requires var s := After(INITIAL, steps); Owns(s, id, chan) && chan in s.sent && r in s.sent[chan]
    ensures exists k :: 0 <= k < |steps| && DecidedAt(steps, k, id, r)
  {
    Ends(steps);
    hide Enabled, Do, CanRun, Before, INITIAL, After, DecidedAt;
    AddressedIsDecided(steps, |steps|, id, chan, r);
  }

  /** What a failure says has happened: the message that was too long, the end of the input, or Close. */
  lemma {:induction false} FailureHasCause(steps: seq<Step>, k: nat, id: int, cause: Cause)
    requires CanRun(INITIAL, steps) && DecidedAt(steps, k, id, Failure(id, cause))
    ensures exists j :: 0 <= j < k && Brings(steps[j], cause)
  {
    hide Enabled, Do, CanRun, Before, INITIAL, Brings, HeldFor;
    BlameIsBrought(steps, k, cause);
  }

  /** Once the input ends nothing is read any more. */
  lemma {:induction false} NothingReadAfterEnd(steps: seq<Step>, j: nat, k: nat)
    requires CanRun(INITIAL, steps) && j < k < |steps| && EndsInput(steps[j])
    ensures !steps[k].ReadResponse? && !steps[k].ReadOther? && !steps[k].ReadOversized? && !steps[k].ReadFailed?
  {
    hide Enabled, Do, CanRun, Before, INITIAL, Doomed, Inv;
    StepAt(steps, j);
    DoomStep(Before(steps, j), steps[j]);
    StaysDoomed(steps, j + 1, k);
    StepAt(steps, k);
    DoomedReadsNothing(Before(steps, k), steps[k]);
  }

  lemma {:induction false} StaysDoomed(steps: seq<Step>, j: nat, k: nat)
    requires CanRun(INITIAL, steps) && j <= k <= |steps| && Doomed(Before(steps, j))
    ensures Doomed(Before(steps, k))
    decreases k
  {
    hide Enabled, Do, CanRun, Before, INITIAL, Doomed, Inv;
    if j < k {
      StaysDoomed(steps, j, k - 1);
      StepAt(steps, k - 1);
      DoomStep(Before(steps, k - 1), steps[k - 1]);
    }
  }

  /** The read loop stops only on a closed connection. */
  lemma {:induction false} StopsClosed(steps: seq<Step>, k: nat)
    requires CanRun(INITIAL, steps) && k <= |steps|
    ensures Before(steps, k).reader.Stopped? ==> Before(steps, k).closed
    decreases k
  {
    hide Enabled, Do, CanRun, Before, Doomed, Inv;
    if k == 0 {
      Ends(steps);
    } else {
      StopsClosed(steps, k - 1);
      StepAt(steps, k - 1);
      StopStep(Before(steps, k - 1), steps[k - 1]);
    }
  }

  /** Close, and the end of the read loop, close the connection for good. */
  lemma {:induction false} ClosesForGood(steps: seq<Step>, j: nat, k: nat)
    requires CanRun(INITIAL, steps) && j < k <= |steps| && (steps[j].Close? || steps[j].ReaderClose?)
    ensures Before(steps, k).closed
    decreases k
  {
    hide Enabled, Do, CanRun, Before, Doomed, Inv, INITIAL;
    StepAt(steps, k - 1);
    StopStep(Before(steps, k - 1), steps[k - 1]);
    if j < k - 1 {
      ClosesForGood(steps, j, k - 1);
    }
  }

  // ----- Pending calls are failed -----

  /** The step takes the lock to fail all pending calls. */
  predicate Condemns(s: Conn, step: Step, cause: Cause) {
    match cause
    case Oversized => step.ReadOversized?
    case ReadFailure => step.ReaderClose? && !s.closed
    case ConnectionClosed => step.Close? && !s.closed
  }

  /** The call is failed, or still to be failed before the lock is released. */
  predicate Condemned(s: Conn, id: int, chan: nat, cause: Cause) {
    || (HeldFor(s.lock, cause) && id in s.pending && s.pending[id] == chan)
    || Settled(s, id, chan, Failure(id, cause))
  }

  lemma {:induction false} CondemnedAtOnce(s: Conn, step: Step, id: int, cause: Cause)
    requires Inv(s) && Enabled(s, step) && Condemns(s, step, cause) && id in s.pending
    ensures Condemned(Do(s, step), id, s.pending[id], cause)
  {
    hide Inv;
  }

  lemma {:induction false} AwaitsFailure(s: Conn, step: Step, id: int, cause: Cause)
    requires Inv(s) && Enabled(s, step) && HeldFor(s.lock, cause) && id in s.pending && step != FailOne(id)
    ensures var s' := Do(s, step); HeldFor(s'.lock, cause) && id in s'.pending && s'.pending[id] == s.pending[id]
  {
    hide CallsOk, ChannelsOwned, EntriesOk, IdsOk;
  }

  lemma {:induction false} CondemnedStep(s: Conn, step: Step, id: int, chan: nat, cause: Cause)
    requires Inv(s) && Enabled(s, step) && Condemned(s, id, chan, cause)
    ensures Condemned(Do(s, step), id, chan, cause)
  {
    hide Enabled, Do, Inv, HeldFor, Settled;
    if Settled(s, id, chan, Failure(id, cause)) {
      SettledStep(s, step, id, chan, Failure(id, cause));
    } else if step == FailOne(id) {
      assert Decides(s, step, id, Failure(id, cause));
      DecidedSettles(s, step, id, Failure(id, cause));
    } else {
      AwaitsFailure(s, step, id, cause);
    }
  }

  /**
    Calls that are pending when a message is too long, the input ends or the connection is closed all get
    the failure, and nothing else, by the time the lock is released.
   */
  lemma {:induction false} PendingCallsFail(steps: seq<Step>, j: nat, n: nat, id: int, cause: Cause)
    requires CanRun(INITIAL, steps) && j < n <= |steps|
    requires Condemns(Before(steps, j), steps[j], cause) && id in Before(steps, j).pending
    ensures Condemned(Before(steps, n), id, Before(steps, j).pending[id], cause)
    ensures Before(steps, n).lock.Free? ==> Settled(Before(steps, n), id, Before(steps, j).pending[id], Failure(id, cause))
    decreases n
  {
    hide Enabled, Do, Inv, CanRun, Before, INITIAL, Settled, Condemns;
    var chan := Before(steps, j).pending[id];
    StepAt(steps, n - 1);
    if j == n - 1 {
      CondemnedAtOnce(Before(steps, j), steps[j], id, cause);
    } else {
      PendingCallsFail(steps, j, n - 1, id, cause);
      CondemnedStep(Before(steps, n - 1), steps[n - 1], id, chan, cause);
    }
  }

  // ----- How calls return -----

  /** The call returns, or is about to return, with this outcome. */
  predicate Underway(s: Conn, id: int, o: Outcome) {
    id in s.calls && (s.calls[id].phase == Removing(o) || s.calls[id].phase == Returned(o))
  }

  /** The step is why the call returns so. */
  predicate Explains(s: Conn, step: Step, id: int, o: Outcome) {
    match o
    case Got(r) => step == Receive(id)
    case WriteFailed => step == WriteError(id)
    case Canceled => step == Cancel(id)
    case Refused => step == Register(id) && s.closed
  }

  lemma {:induction false} UnderwayStep(s: Conn, step: Step, id: int, o: Outcome)
    requires Inv(s) && Enabled(s, step)
    ensures Underway(Do(s, step), id, o) ==> Underway(s, id, o) || Explains(s, step, id, o)
  {
    hide Inv;
  }

  lemma {:induction false} ReturnedStep(s: Conn, step: Step, id: int, o: Outcome)
    requires Inv(s) && Enabled(s, step) && Returns(s, id, o)
    ensures Returns(Do(s, step), id, o)
  {
    hide CallsOk, ChannelsOwned, EntriesOk, LockOk;
  }

  /** A call returns once. */
  lemma {:induction false} ReturnedIsFinal(steps: seq<Step>, k: nat, n: nat, id: int, o: Outcome)
    requires CanRun(INITIAL, steps) && k <= n <= |steps| && Returns(Before(steps, k), id, o)
    ensures Returns(Before(steps, n), id, o)
    decreases n
  {
    hide Enabled, Do, Inv, Returns, CanRun, Before;
    if k < n {
      ReturnedIsFinal(steps, k, n - 1, id, o);
      StepAt(steps, n - 1);
      ReturnedStep(Before(steps, n - 1), steps[n - 1], id, o);
    }
  }

  lemma {:induction false} UnderwayIsExplained(steps: seq<Step>, n: nat, id: int, o: Outcome)
    requires CanRun(INITIAL, steps) && n <= |steps| && Underway(Before(steps, n), id, o)
    ensures exists k :: 0 <= k < n && Explains(Before(steps, k), steps[k], id, o)
    decreases n
  {
    hide Enabled, Do, Inv, Underway, CanRun, Before, Explains;
    if n == 0 {
      Ends(steps);
      NoneUnderway(id, o);
    } else {
      StepAt(steps, n - 1);
      UnderwayStep(Before(steps, n - 1), steps[n - 1], id, o);
      if !Explains(Before(steps, n - 1), steps[n - 1], id, o) {
        UnderwayIsExplained(steps, n - 1, id, o);
      }
    }
  }

  lemma {:induction false} NoneUnderway(id: int, o: Outcome)
    ensures !Underway(INITIAL, id, o)
  {
  }

  lemma {:induction false} GotWasSent(s: Conn, id: int, r: Response)
    requires Inv(s) && Returns(s, id, Got(r))
    ensures s.calls[id].chan.Some? && Owns(s, id, s.calls[id].chan.value)
    ensures var chan := s.calls[id].chan.value; chan in s.sent && r in s.sent[chan]
  {
    hide LockOk, EntriesOk;
    assert s.calls[id].chan.Some?;
    assert Owns(s, id, s.calls[id].chan.value);
    assert CallOk(s, id, s.calls[id].chan.value);
  }

  /**
    Every call that returns does so for a step of its own: a failed write, a cancellation, a closed
    connection, or the receipt of a response, which one step decided.
   */
  lemma {:induction false} EveryReturnIsExplained(steps: seq<Step>, id: int, o: Outcome)
    requires CanRun(INITIAL, steps) && Returns(After(INITIAL, steps), id, o)
    ensures exists k :: 0 <= k < |steps| && Explains(Before(steps, k), steps[k], id, o)
    ensures o.Got? ==> exists k :: 0 <= k < |steps| && DecidedAt(steps, k, id, o.response)
  {
    Ends(steps);
    assert Underway(Before(steps, |steps|), id, o);
    hide Enabled, Do, CanRun, Before, INITIAL, After, DecidedAt, Explains, Inv, Underway, Returns;
    UnderwayIsExplained(steps, |steps|, id, o);
    if o.Got? {
      GotWasSent(After(INITIAL, steps), id, o.response);
      SentIsDecided(steps, id, After(INITIAL, steps).calls[id].chan.value, o.response);
    }
  }

  /** A response that was read for a call that waits reaches it, whatever else happens. */
  lemma {:induction false} ReplyIsReturned(steps: seq<Step>, k: nat, id: int, body: int, eof: bool, r: Response)
    requires CanRun(INITIAL, steps) && k < |steps|
    requires steps[k] == ReadResponse(id, body, eof) && id in Before(steps, k).pending
    requires Returns(After(INITIAL, steps), id, Got(r))
    ensures r == Reply(id, body)
  {
    hide Enabled, Do, CanRun, Before, INITIAL, After, Returns;
    assert DecidedAt(steps, k, id, Reply(id, body));
    DecidedIsSent(steps, k, id, Reply(id, body));
  }
}
