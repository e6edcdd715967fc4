/**
  mcpbridge/client.go, jsonrpcConn: calls, cancellation, the read loop, oversized messages and Close
  as one state machine. A step is what one goroutine does between two points where another may run:
  a section under c.mu is one step, except that failPendingLocked sends one message per step while
  the lock stays held. Section 5 of the JSON-RPC 2.0 specification requires the id of a response to
  be the id of its request.
 */
module JsonRpc {
  import opened Wrappers

  datatype Cause = ConnectionClosed | ReadFailure | Oversized
  datatype Response = Reply(id: int, body: int) | Failure(id: int, cause: Cause)

  datatype Outcome = Got(response: Response) | WriteFailed | Canceled | Refused

  datatype Phase =
    | Drawn                        // the id is drawn
    | Opened                       // the channel is made, the call is not registered
    | Writing                      // registered, the request is being written
    | Waiting                      // in the select
    | Removing(outcome: Outcome)   // about to delete its pending entry
    | Returned(outcome: Outcome)

  datatype Call = Call(phase: Phase, chan: Option<nat>)

  datatype Reader =
    | Reading
    | Holding(chan: nat, response: Response, eof: bool)  // entry deleted, about to send
    | Failing(eof: bool)                                 // in failPending
    | MustClose                                          // about to enter closeFromReadLoop
    | Closing                                            // in closeFromReadLoop, holding the lock
    | Stopped

  datatype Lock = Free | HeldForOversize | HeldByReader | HeldByCloser

  /** buffers are the one-slot channels, sent is everything ever sent on them. */
  datatype Conn = Conn(
    nextId: nat,
    nextChan: nat,
    calls: map<int, Call>,
    pending: map<int, nat>,
    buffers: map<nat, seq<Response>>,
    sent: map<nat, seq<Response>>,
    closed: bool,
    doneClosed: nat,
    lock: Lock,
    reader: Reader)

  const INITIAL := Conn(0, 0, map[], map[], map[], map[], false, 0, Free, Reading)

  datatype Step =
    | DrawId
    | MakeChan(id: int)
    | Register(id: int)
    | Written(id: int)
    | WriteError(id: int)
    | Cancel(id: int)
    | RemovePending(id: int)
    | Receive(id: int)
    | ReadResponse(id: int, body: int, eof: bool)
    | ReadOther(eof: bool)
    | ReadOversized(eof: bool)
    | ReadFailed
    | Deliver
    | ReaderClose
    | Close
    | FailOne(id: int)
    | FailDone

  predicate InPhase(s: Conn, id: int, phase: Phase) {
    id in s.calls && s.calls[id].phase == phase
  }

  predicate HasRoom(s: Conn, chan: nat) {
    chan in s.buffers && |s.buffers[chan]| < 1
  }

  /** The step can be taken; a send on a full channel and an acquisition of a held lock cannot. */
  predicate Enabled(s: Conn, step: Step) {
    match step
    case DrawId => true
    case MakeChan(id) => InPhase(s, id, Drawn)
    case Register(id) => InPhase(s, id, Opened) && s.calls[id].chan.Some? && s.lock.Free?
    case Written(id) => InPhase(s, id, Writing)
    case WriteError(id) => InPhase(s, id, Writing)
    case Cancel(id) => InPhase(s, id, Waiting)
    case RemovePending(id) => id in s.calls && s.calls[id].phase.Removing? && s.lock.Free?
    case Receive(id) =>
      && InPhase(s, id, Waiting) && s.calls[id].chan.Some?
      && s.calls[id].chan.value in s.buffers && s.buffers[s.calls[id].chan.value] != []
    case ReadResponse(id, _, _) => s.reader.Reading? && id != 0 && s.lock.Free?
    case ReadOther(_) => s.reader.Reading?
    case ReadOversized(_) => s.reader.Reading? && s.lock.Free?
    case ReadFailed => s.reader.Reading?
    case Deliver => s.reader.Holding? && HasRoom(s, s.reader.chan)
    case ReaderClose => s.reader.MustClose? && s.lock.Free?
    case Close => s.lock.Free?
    case FailOne(id) => !s.lock.Free? && id in s.pending && HasRoom(s, s.pending[id])
    case FailDone => !s.lock.Free? && s.pending == map[]
  }

  function SetPhase(s: Conn, id: int, phase: Phase): Conn
    requires id in s.calls
  {
    s.(calls := s.calls[id := s.calls[id].(phase := phase)])
  }

  function Send(s: Conn, chan: nat, r: Response): Conn
    requires HasRoom(s, chan)
  {
    s.(buffers := s.buffers[chan := s.buffers[chan] + [r]],
       sent := s.sent[chan := (if chan in s.sent then s.sent[chan] else []) + [r]])
  }

  function AfterLine(eof: bool): Reader {
    if eof then MustClose else Reading
  }

  function CauseOf(lock: Lock): Cause {
    match lock
    case HeldForOversize => Oversized
    case HeldByReader => ReadFailure
    case _ => ConnectionClosed
  }

  function Do(s: Conn, step: Step): Conn
    requires Enabled(s, step)
  {
    match step
    case DrawId => s.(nextId := s.nextId + 1, calls := s.calls[s.nextId + 1 := Call(Drawn, None)])
    case MakeChan(id) =>
      s.(nextChan := s.nextChan + 1,
         calls := s.calls[id := Call(Opened, Some(s.nextChan))],
         buffers := s.buffers[s.nextChan := []],
         sent := s.sent[s.nextChan := []])
    case Register(id) =>
      if s.closed then SetPhase(s, id, Returned(Refused))
      else SetPhase(s, id, Writing).(pending := s.pending[id := s.calls[id].chan.value])
    case Written(id) => SetPhase(s, id, Waiting)
    case WriteError(id) => SetPhase(s, id, Removing(WriteFailed))
    case Cancel(id) => SetPhase(s, id, Removing(Canceled))
    case RemovePending(id) =>
      SetPhase(s, id, Returned(s.calls[id].phase.outcome)).(pending := s.pending - {id})
    case Receive(id) =>
      var chan := s.calls[id].chan.value;
      SetPhase(s, id, Returned(Got(s.buffers[chan][0]))).(buffers := s.buffers[chan := s.buffers[chan][1..]])
    case ReadResponse(id, body, eof) =>
      if id in s.pending
      then s.(pending := s.pending - {id}, reader := Holding(s.pending[id], Reply(id, body), eof))
      else s.(reader := AfterLine(eof))
    case ReadOther(eof) => s.(reader := AfterLine(eof))
    case ReadOversized(eof) => s.(lock := HeldForOversize, reader := Failing(eof))
    case ReadFailed => s.(reader := MustClose)
    case Deliver => Send(s, s.reader.chan, s.reader.response).(reader := AfterLine(s.reader.eof))
    case ReaderClose =>
      if s.closed then s.(reader := Stopped)
      else s.(closed := true, lock := HeldByReader, reader := Closing)
    case Close => if s.closed then s else s.(closed := true, lock := HeldByCloser)
    case FailOne(id) => Send(s, s.pending[id], Failure(id, CauseOf(s.lock))).(pending := s.pending - {id})
    case FailDone =>
      match s.lock
      case HeldForOversize => s.(lock := Free, reader := if s.reader.Failing? then AfterLine(s.reader.eof) else s.reader)
      case HeldByReader => s.(lock := Free, doneClosed := s.doneClosed + 1, reader := Stopped)
      case _ => s.(lock := Free, doneClosed := s.doneClosed + 1)
  }

  predicate CanRun(s: Conn, steps: seq<Step>)
    decreases |steps|
  {
    steps == [] || (Enabled(s, steps[0]) && CanRun(Do(s, steps[0]), steps[1..]))
  }

  function After(s: Conn, steps: seq<Step>): Conn
    requires CanRun(s, steps)
    decreases |steps|
  {
    if steps == [] then s else After(Do(s, steps[0]), steps[1..])
  }

  // ----- What is promised of every reachable state -----

  /** The call's channel, once it is made. */
  predicate Owns(s: Conn, id: int, chan: nat) {
    id in s.calls && s.calls[id].chan == Some(chan)
  }

  /** Each channel gets at most one message, always with the id of the call that made the channel. */
  ghost predicate OneOwnMessage(s: Conn) {
    forall id, chan: nat :: Owns(s, id, chan) ==>
      && chan in s.sent && |s.sent[chan]| <= 1
      && forall r :: r in s.sent[chan] ==> r.id == id
  }

  /** A call that waits is pending on a connection that can still fail it, or its message is on the way, or there. */
  ghost predicate Reachable(s: Conn, id: int, chan: nat) {
    || (id in s.pending && (!s.closed || s.lock.HeldByReader? || s.lock.HeldByCloser?))
    || (s.reader.Holding? && s.reader.chan == chan && s.reader.response.id == id)
    || (chan in s.buffers && |s.buffers[chan]| == 1 && s.buffers[chan][0].id == id)
  }

  ghost predicate NoCallIsLost(s: Conn) {
    forall id :: InPhase(s, id, Waiting) ==> s.calls[id].chan.Some? && Reachable(s, id, s.calls[id].chan.value)
  }

  ghost predicate Safe(s: Conn) {
    && OneOwnMessage(s)
    && NoCallIsLost(s)
    && (s.closed && s.lock.Free? ==> s.pending == map[])
    && (forall id :: id in s.calls && s.calls[id].phase.Returned? ==> id !in s.pending)
    && (forall id :: id in s.calls && s.calls[id].phase.Returned? && s.calls[id].phase.outcome.Got? ==>
          s.calls[id].phase.outcome.response.id == id)
    && s.doneClosed <= 1
  }

  // ----- The inductive invariant -----

  predicate IsRegistered(phase: Phase) {
    phase.Writing? || phase.Waiting? || phase.Removing?
  }

  predicate Held(s: Conn, chan: nat) {
    s.reader.Holding? && s.reader.chan == chan
  }

  predicate Closers(lock: Lock) {
    lock.HeldByReader? || lock.HeldByCloser?
  }

  ghost predicate IdsOk(s: Conn) {
    forall id :: id in s.calls ==> 1 <= id <= s.nextId && (s.calls[id].chan.None? <==> s.calls[id].phase.Drawn?)
  }

  ghost predicate ChannelsOwned(s: Conn) {
    && (forall id, chan: nat :: Owns(s, id, chan) ==> chan < s.nextChan && chan in s.buffers && chan in s.sent)
    && (forall i, j, chan: nat :: Owns(s, i, chan) && Owns(s, j, chan) ==> i == j)
  }

  /** What is known of call id, whose channel is chan. */
  ghost predicate CallOk(s: Conn, id: int, chan: nat)
    requires id in s.calls && chan in s.buffers && chan in s.sent
  {
    var phase, buffer, sent := s.calls[id].phase, s.buffers[chan], s.sent[chan];
    && |sent| <= 1 && (forall r :: r in sent ==> r.id == id)
    && (id in s.pending ==> s.pending[id] == chan && IsRegistered(phase) && sent == [] && !Held(s, chan))
    && (Held(s, chan) ==> s.reader.response.id == id && sent == [])
    && (phase.Opened? ==> id !in s.pending && !Held(s, chan) && sent == [])
    && (phase.Writing? || phase.Waiting? ==> id in s.pending || Held(s, chan) || sent != [])
    && (phase.Returned? && phase.outcome.Got? ==> sent == [phase.outcome.response] && buffer == [])
    && (!(phase.Returned? && phase.outcome.Got?) ==> buffer == sent)
    && (phase.Removing? ==> !phase.outcome.Got?)
  }

  ghost predicate CallsOk(s: Conn) {
    forall id, chan: nat :: Owns(s, id, chan) ==> chan in s.buffers && chan in s.sent && CallOk(s, id, chan)
  }

  ghost predicate LockOk(s: Conn) {
    && (s.closed && !Closers(s.lock) ==> s.pending == map[])
    && (Closers(s.lock) ==> s.closed)
    && s.doneClosed == (if s.closed && !Closers(s.lock) then 1 else 0)
    && (s.lock.HeldForOversize? <==> s.reader.Failing?)
    && (s.lock.HeldByReader? <==> s.reader.Closing?)
  }

  /** Pending entries and the held message belong to calls. */
  ghost predicate EntriesOk(s: Conn) {
    && (forall id :: id in s.pending ==> Owns(s, id, s.pending[id]))
    && (s.reader.Holding? ==> Owns(s, s.reader.response.id, s.reader.chan))
  }

  ghost predicate Inv(s: Conn) {
    IdsOk(s) && ChannelsOwned(s) && CallsOk(s) && LockOk(s) && EntriesOk(s)
  }

  // ----- Who takes a step -----

  predicate ByCaller(step: Step) {
    || step.DrawId? || step.MakeChan? || step.Register? || step.Written? || step.WriteError? || step.Cancel?
    || step.RemovePending? || step.Receive?
  }

  predicate ByReader(step: Step) {
    || step.ReadResponse? || step.ReadOther? || step.ReadOversized? || step.ReadFailed? || step.Deliver? || step.ReaderClose?
  }

  predicate ByLocker(step: Step) {
    step.Close? || step.FailOne? || step.FailDone?
  }

  // ----- Every step keeps the invariant -----

  lemma {:induction false} Taker(step: Step)
    ensures ByCaller(step) || ByReader(step) || ByLocker(step)
  {
  }

  lemma {:induction false} IdsStepCaller(s: Conn, step: Step)
    requires ByCaller(step) && Inv(s) && Enabled(s, step)
    ensures IdsOk(Do(s, step))
  {
    hide CallsOk, LockOk, EntriesOk, ChannelsOwned;
  }

  lemma {:induction false} IdsStepReader(s: Conn, step: Step)
    requires ByReader(step) && Inv(s) && Enabled(s, step)
    ensures IdsOk(Do(s, step))
  {
    hide CallsOk, LockOk, EntriesOk, ChannelsOwned;
  }

  lemma {:induction false} IdsStepLocker(s: Conn, step: Step)
    requires ByLocker(step) && Inv(s) && Enabled(s, step)
    ensures IdsOk(Do(s, step))
  {
    hide CallsOk, LockOk, EntriesOk, ChannelsOwned;
  }

  lemma {:induction false} IdsStep(s: Conn, step: Step)
    requires Inv(s) && Enabled(s, step)
    ensures IdsOk(Do(s, step))
  {
    hide *;
    Taker(step);
    if ByCaller(step) {
      IdsStepCaller(s, step);
    } else if ByReader(step) {
      IdsStepReader(s, step);
    } else {
      IdsStepLocker(s, step);
    }
  }

  lemma {:induction false} OwnedBeforeCaller(s: Conn, step: Step, id: int, chan: nat)
    requires ByCaller(step) && Inv(s) && Enabled(s, step) && Owns(Do(s, step), id, chan)
    ensures Owns(s, id, chan) || (step == MakeChan(id) && chan == s.nextChan)
  {
    hide CallsOk, LockOk, EntriesOk, ChannelsOwned;
  }

  lemma {:induction false} OwnedBeforeReader(s: Conn, step: Step, id: int, chan: nat)
    requires ByReader(step) && Inv(s) && Enabled(s, step) && Owns(Do(s, step), id, chan)
    ensures Owns(s, id, chan) || (step == MakeChan(id) && chan == s.nextChan)
  {
    hide CallsOk, LockOk, EntriesOk, ChannelsOwned;
  }

  lemma {:induction false} OwnedBeforeLocker(s: Conn, step: Step, id: int, chan: nat)
    requires ByLocker(step) && Inv(s) && Enabled(s, step) && Owns(Do(s, step), id, chan)
    ensures Owns(s, id, chan) || (step == MakeChan(id) && chan == s.nextChan)
  {
    hide CallsOk, LockOk, EntriesOk, ChannelsOwned;
  }

  lemma {:induction false} OwnedBefore(s: Conn, step: Step, id: int, chan: nat)
    requires Inv(s) && Enabled(s, step) && Owns(Do(s, step), id, chan)
    ensures Owns(s, id, chan) || (step == MakeChan(id) && chan == s.nextChan)
  {
    hide *;
    Taker(step);
    if ByCaller(step) {
      OwnedBeforeCaller(s, step, id, chan);
    } else if ByReader(step) {
      OwnedBeforeReader(s, step, id, chan);
    } else {
      OwnedBeforeLocker(s, step, id, chan);
    }
  }

  lemma {:induction false} ChannelsGrowCaller(s: Conn, step: Step)
    requires ByCaller(step) && Enabled(s, step)
    ensures var s' := Do(s, step);
            && s'.nextChan == s.nextChan + (if step.MakeChan? then 1 else 0)
            && (forall chan :: chan in s.buffers ==> chan in s'.buffers)
            && (forall chan :: chan in s.sent ==> chan in s'.sent)
            && (step.MakeChan? ==> s.nextChan in s'.buffers && s.nextChan in s'.sent)
  {
  }

  lemma {:induction false} ChannelsGrowReader(s: Conn, step: Step)
    requires ByReader(step) && Enabled(s, step)
    ensures var s' := Do(s, step);
            && s'.nextChan == s.nextChan + (if step.MakeChan? then 1 else 0)
            && (forall chan :: chan in s.buffers ==> chan in s'.buffers)
            && (forall chan :: chan in s.sent ==> chan in s'.sent)
            && (step.MakeChan? ==> s.nextChan in s'.buffers && s.nextChan in s'.sent)
  {
  }

  lemma {:induction false} ChannelsGrowLocker(s: Conn, step: Step)
    requires ByLocker(step) && Enabled(s, step)
    ensures var s' := Do(s, step);
            && s'.nextChan == s.nextChan + (if step.MakeChan? then 1 else 0)
            && (forall chan :: chan in s.buffers ==> chan in s'.buffers)
            && (forall chan :: chan in s.sent ==> chan in s'.sent)
            && (step.MakeChan? ==> s.nextChan in s'.buffers && s.nextChan in s'.sent)
  {
  }

  lemma {:induction false} ChannelsGrow(s: Conn, step: Step)
    requires Enabled(s, step)
    ensures var s' := Do(s, step);
            && s'.nextChan == s.nextChan + (if step.MakeChan? then 1 else 0)
            && (forall chan :: chan in s.buffers ==> chan in s'.buffers)
            && (forall chan :: chan in s.sent ==> chan in s'.sent)
            && (step.MakeChan? ==> s.nextChan in s'.buffers && s.nextChan in s'.sent)
  {
    hide *;
    Taker(step);
    if ByCaller(step) {
      ChannelsGrowCaller(s, step);
    } else if ByReader(step) {
      ChannelsGrowReader(s, step);
    } else {
      ChannelsGrowLocker(s, step);
    }
  }

  lemma {:induction false} OwnedStep(s: Conn, step: Step)
    requires Inv(s) && Enabled(s, step)
    ensures ChannelsOwned(Do(s, step))
  {
    hide Do, Enabled, CallsOk, LockOk, EntriesOk, IdsOk, Owns;
    var s' := Do(s, step);
    forall id, chan: nat | Owns(s', id, chan)
      ensures Owns(s, id, chan) || (step == MakeChan(id) && chan == s.nextChan)
    {
      OwnedBefore(s, step, id, chan);
    }
    ChannelsGrow(s, step);
  }

  /** The read loop and the holder of the lock change no call, and only take pending entries away. */
  ghost predicate OnlyTakes(s: Conn, s': Conn) {
    && s'.calls == s.calls
    && (forall id :: id in s'.pending ==> id in s.pending && s'.pending[id] == s.pending[id])
    && (s'.reader.Holding? ==>
          || (s.reader.Holding? && s'.reader.response.id == s.reader.response.id && s'.reader.chan == s.reader.chan)
          || (s'.reader.response.id in s.pending && s.pending[s'.reader.response.id] == s'.reader.chan))
  }

  lemma {:induction false} ReaderTakes(s: Conn, step: Step)
    requires ByReader(step) && Enabled(s, step)
    ensures OnlyTakes(s, Do(s, step))
  {
  }

  lemma {:induction false} LockerTakes(s: Conn, step: Step)
    requires ByLocker(step) && Enabled(s, step)
    ensures OnlyTakes(s, Do(s, step))
  {
  }

  lemma {:induction false} TakingKeepsEntries(s: Conn, s': Conn)
    requires EntriesOk(s) && OnlyTakes(s, s')
    ensures EntriesOk(s')
  {
  }

  lemma {:induction false} EntriesStepCaller(s: Conn, step: Step)
    requires ByCaller(step) && Inv(s) && Enabled(s, step)
    ensures EntriesOk(Do(s, step))
  {
    hide LockOk, CallsOk, ChannelsOwned;
    var s' := Do(s, step);
    assert s'.reader == s.reader;
    forall id | id in s'.pending
      ensures Owns(s', id, s'.pending[id])
    {
      assert id in s.pending ==> Owns(s, id, s.pending[id]);
    }
  }

  lemma {:induction false} EntriesStep(s: Conn, step: Step)
    requires Inv(s) && Enabled(s, step)
    ensures EntriesOk(Do(s, step))
  {
    hide Enabled, Do, EntriesOk, IdsOk, ChannelsOwned, CallsOk, LockOk, OnlyTakes;
    Taker(step);
    if ByCaller(step) {
      EntriesStepCaller(s, step);
    } else {
      if ByReader(step) {
        ReaderTakes(s, step);
      } else {
        LockerTakes(s, step);
      }
      TakingKeepsEntries(s, Do(s, step));
    }
  }

  lemma {:induction false} LockStepCaller(s: Conn, step: Step)
    requires ByCaller(step) && Inv(s) && Enabled(s, step)
    ensures LockOk(Do(s, step))
  {
    hide CallsOk, ChannelsOwned, EntriesOk, IdsOk;
  }

  lemma {:induction false} LockStepReader(s: Conn, step: Step)
    requires ByReader(step) && Inv(s) && Enabled(s, step)
    ensures LockOk(Do(s, step))
  {
    hide CallsOk, ChannelsOwned, EntriesOk, IdsOk;
  }

  lemma {:induction false} LockStepLocker(s: Conn, step: Step)
    requires ByLocker(step) && Inv(s) && Enabled(s, step)
    ensures LockOk(Do(s, step))
  {
    hide CallsOk, ChannelsOwned, EntriesOk, IdsOk;
  }

  lemma {:induction false} LockStep(s: Conn, step: Step)
    requires Inv(s) && Enabled(s, step)
    ensures LockOk(Do(s, step))
  {
    hide *;
    Taker(step);
    if ByCaller(step) {
      LockStepCaller(s, step);
    } else if ByReader(step) {
      LockStepReader(s, step);
    } else {
      LockStepLocker(s, step);
    }
  }

  /** The step is about another call. */
  predicate Bystander(s: Conn, step: Step, id: int, chan: nat) {
    match step
    case DrawId | ReadOther(_) | ReadOversized(_) | ReadFailed | ReaderClose | Close | FailDone => true
    case Deliver => s.reader.Holding? && chan != s.reader.chan
    case _ => id != step.id
  }

  /** What a step does to the call with channel chan when it is not the step's own call. */
  lemma {:induction false} BystanderStepCaller(s: Conn, step: Step, id: int, chan: nat)
    requires ByCaller(step) && Inv(s) && Enabled(s, step) && Owns(s, id, chan) && Owns(Do(s, step), id, chan)
    requires Bystander(s, step, id, chan)
    ensures var s' := Do(s, step); chan in s'.buffers && chan in s'.sent && CallOk(s', id, chan)
  {
    hide LockOk, EntriesOk, IdsOk;
    assert CallOk(s, id, chan);
    if step.Receive? {
      assert Owns(s, step.id, s.calls[step.id].chan.value);
    }
  }

  lemma {:induction false} BystanderStepReader(s: Conn, step: Step, id: int, chan: nat)
    requires ByReader(step) && Inv(s) && Enabled(s, step) && Owns(s, id, chan) && Owns(Do(s, step), id, chan)
    requires Bystander(s, step, id, chan)
    ensures var s' := Do(s, step); chan in s'.buffers && chan in s'.sent && CallOk(s', id, chan)
  {
    hide LockOk, IdsOk;
    assert CallOk(s, id, chan);
    if step.ReadResponse? && step.id in s.pending {
      assert Owns(s, step.id, s.pending[step.id]);
    }
  }

  lemma {:induction false} BystanderStepLocker(s: Conn, step: Step, id: int, chan: nat)
    requires ByLocker(step) && Inv(s) && Enabled(s, step) && Owns(s, id, chan) && Owns(Do(s, step), id, chan)
    requires Bystander(s, step, id, chan)
    ensures var s' := Do(s, step); chan in s'.buffers && chan in s'.sent && CallOk(s', id, chan)
  {
    hide IdsOk;
    assert CallOk(s, id, chan);
    if step.FailOne? {
      assert Owns(s, step.id, s.pending[step.id]);
    }
  }

  lemma {:induction false} BystanderStep(s: Conn, step: Step, id: int, chan: nat)
    requires Inv(s) && Enabled(s, step) && Owns(s, id, chan) && Owns(Do(s, step), id, chan)
    requires Bystander(s, step, id, chan)
    ensures var s' := Do(s, step); chan in s'.buffers && chan in s'.sent && CallOk(s', id, chan)
  {
    hide *;
    Taker(step);
    if ByCaller(step) {
      BystanderStepCaller(s, step, id, chan);
    } else if ByReader(step) {
      BystanderStepReader(s, step, id, chan);
    } else {
      BystanderStepLocker(s, step, id, chan);
    }
  }

  /** The step is about the call. */
  predicate Own(s: Conn, step: Step, id: int, chan: nat) {
    match step
    case DrawId | ReadOther(_) | ReadOversized(_) | ReadFailed | ReaderClose | Close | FailDone => false
    case Deliver => s.reader.Holding? && chan == s.reader.chan
    case _ => id == step.id
  }

  /** What a step does to its own call. */
  lemma {:induction false} OwnStepCaller(s: Conn, step: Step, id: int, chan: nat)
    requires ByCaller(step) && Inv(s) && Enabled(s, step) && Owns(Do(s, step), id, chan)
    requires Own(s, step, id, chan)
    ensures var s' := Do(s, step); chan in s'.buffers && chan in s'.sent && CallOk(s', id, chan)
  {
    hide LockOk;
    if !step.MakeChan? {
      assert Owns(s, id, chan);
      assert CallOk(s, id, chan);
    } else {
      assert id in s.pending ==> Owns(s, id, s.pending[id]);
      assert s.reader.Holding? ==> s.reader.chan < s.nextChan by {
        if s.reader.Holding? { assert Owns(s, s.reader.response.id, s.reader.chan); }
      }
    }
  }

  lemma {:induction false} OwnStepReader(s: Conn, step: Step, id: int, chan: nat)
    requires ByReader(step) && Inv(s) && Enabled(s, step) && Owns(Do(s, step), id, chan)
    requires Own(s, step, id, chan)
    ensures var s' := Do(s, step); chan in s'.buffers && chan in s'.sent && CallOk(s', id, chan)
  {
    hide IdsOk;
    assert Owns(s, id, chan) && CallOk(s, id, chan);
  }

  lemma {:induction false} OwnStepLocker(s: Conn, step: Step, id: int, chan: nat)
    requires ByLocker(step) && Inv(s) && Enabled(s, step) && Owns(Do(s, step), id, chan)
    requires Own(s, step, id, chan)
    ensures var s' := Do(s, step); chan in s'.buffers && chan in s'.sent && CallOk(s', id, chan)
  {
    hide IdsOk;
    assert Owns(s, id, chan) && CallOk(s, id, chan);
  }

  lemma {:induction false} OwnStep(s: Conn, step: Step, id: int, chan: nat)
    requires Inv(s) && Enabled(s, step) && Owns(Do(s, step), id, chan)
    requires Own(s, step, id, chan)
    ensures var s' := Do(s, step); chan in s'.buffers && chan in s'.sent && CallOk(s', id, chan)
  {
    hide *;
    Taker(step);
    if ByCaller(step) {
      OwnStepCaller(s, step, id, chan);
    } else if ByReader(step) {
      OwnStepReader(s, step, id, chan);
    } else {
      OwnStepLocker(s, step, id, chan);
    }
  }

  lemma {:induction false} OwnOrNot(s: Conn, step: Step, id: int, chan: nat)
    requires Enabled(s, step)
    ensures Own(s, step, id, chan) || Bystander(s, step, id, chan)
    ensures Own(s, step, id, chan) || !step.MakeChan? || step.id != id
  {
  }

  lemma {:induction false} CallStep(s: Conn, step: Step, id: int, chan: nat)
    requires Inv(s) && Enabled(s, step) && Owns(Do(s, step), id, chan)
    ensures var s' := Do(s, step); chan in s'.buffers && chan in s'.sent && CallOk(s', id, chan)
  {
    hide *;
    OwnOrNot(s, step, id, chan);
    OwnedBefore(s, step, id, chan);
    if Own(s, step, id, chan) {
      OwnStep(s, step, id, chan);
    } else {
      BystanderStep(s, step, id, chan);
    }
  }

  lemma {:induction false} StepKeepsInv(s: Conn, step: Step)
    requires Inv(s) && Enabled(s, step)
    ensures Inv(Do(s, step))
  {
    hide Do, Enabled, CallOk, IdsOk, ChannelsOwned, EntriesOk, LockOk;
    IdsStep(s, step);
    OwnedStep(s, step);
    EntriesStep(s, step);
    LockStep(s, step);
    forall id, chan: nat | Owns(Do(s, step), id, chan)
      ensures var s' := Do(s, step); chan in s'.buffers && chan in s'.sent && CallOk(s', id, chan)
    {
      CallStep(s, step, id, chan);
    }
  }

  lemma {:induction false} RunKeepsInv(s: Conn, steps: seq<Step>)
    requires Inv(s) && CanRun(s, steps)
    ensures Inv(After(s, steps))
    decreases |steps|
  {
    hide Do, Enabled, Inv;
    if steps != [] {
      StepKeepsInv(s, steps[0]);
      RunKeepsInv(Do(s, steps[0]), steps[1..]);
    }
  }

  lemma {:induction false} InvIsSafe(s: Conn)
    requires Inv(s)
    ensures Safe(s)
  {
    forall id | InPhase(s, id, Waiting)
      ensures s.calls[id].chan.Some? && Reachable(s, id, s.calls[id].chan.value)
    {
      assert Owns(s, id, s.calls[id].chan.value);
    }
    forall id | id in s.calls && s.calls[id].phase.Returned?
      ensures id !in s.pending
      ensures s.calls[id].phase.outcome.Got? ==> s.calls[id].phase.outcome.response.id == id
    {
      var chan := s.calls[id].chan.value;
      assert Owns(s, id, chan);
      if s.calls[id].phase.outcome.Got? {
        assert s.calls[id].phase.outcome.response in s.sent[chan];
      }
    }
  }

  /** Every interleaving is safe. */
  lemma {:induction false} EveryRunIsSafe(steps: seq<Step>)
    requires CanRun(INITIAL, steps)
    ensures Safe(After(INITIAL, steps))
  {
    hide Do, Enabled;
    InitialInv();
    RunKeepsInv(INITIAL, steps);
    InvIsSafe(After(INITIAL, steps));
  }

  lemma {:induction false} InitialInv()
    ensures Inv(INITIAL)
  {
  }

  // ----- Nothing blocks for good -----

  lemma {:induction false} PendingHasRoom(s: Conn, id: int)
    requires Inv(s) && id in s.pending
    ensures HasRoom(s, s.pending[id])
  {
    hide LockOk, IdsOk, ChannelsOwned;
    assert Owns(s, id, s.pending[id]);
  }

  lemma {:induction false} HeldHasRoom(s: Conn)
    requires Inv(s) && s.reader.Holding?
    ensures HasRoom(s, s.reader.chan)
  {
    hide LockOk, IdsOk, ChannelsOwned;
    assert Owns(s, s.reader.response.id, s.reader.chan);
  }

  /** The read loop never blocks on a send, and neither does a goroutine that holds the lock. */
  lemma {:induction false} SendsNeverBlock(steps: seq<Step>)
    requires CanRun(INITIAL, steps)
    ensures var s := After(INITIAL, steps);
            && (s.reader.Holding? ==> Enabled(s, Deliver))
            && (!s.lock.Free? ==> forall id :: id in s.pending ==> Enabled(s, FailOne(id)))
            && (!s.lock.Free? && s.pending == map[] ==> Enabled(s, FailDone))
  {
    InitialInv();
    RunKeepsInv(INITIAL, steps);
    var s := After(INITIAL, steps);
    hide Inv, After, CanRun, Do, HasRoom, INITIAL;
    if s.reader.Holding? {
      HeldHasRoom(s);
    }
    forall id | id in s.pending
      ensures HasRoom(s, s.pending[id])
    {
      PendingHasRoom(s, id);
    }
  }

  lemma {:induction false} SomeKey(m: map<int, nat>) returns (k: int)
    requires m != map[]
    ensures k in m
  {
    assert m.Items != {};
    var item :| item in m.Items;
    k := item.0;
  }

  /** Only sends and the release of the lock: what the holder of the lock and the read loop do. */
  predicate Sends(steps: seq<Step>) {
    forall i :: 0 <= i < |steps| ==> steps[i].Deliver? || steps[i].FailOne? || steps[i].FailDone?
  }

  /** The calls stand where they stood, and the connection is as closed as it was. */
  predicate SameCalls(s: Conn, s': Conn) {
    s'.calls == s.calls && s'.closed == s.closed && (s'.reader.Holding? ==> s.reader.Holding?)
  }

  lemma {:induction false} FailOneEffect(s: Conn, id: int)
    requires Inv(s) && !s.lock.Free? && id in s.pending
    ensures Enabled(s, FailOne(id))
    ensures var s' := Do(s, FailOne(id));
            SameCalls(s, s') && s'.lock == s.lock && s'.pending == s.pending - {id} && |s'.pending| == |s.pending| - 1
  {
    PendingHasRoom(s, id);
    hide Inv, HasRoom;
    var s' := Do(s, FailOne(id));
    assert s'.pending.Keys == s.pending.Keys - {id};
    assert |s'.pending| == |s'.pending.Keys| && |s.pending| == |s.pending.Keys|;
  }

  lemma {:induction false} FailDoneEffect(s: Conn)
    requires Enabled(s, FailDone)
    ensures var s' := Do(s, FailDone); SameCalls(s, s') && s'.lock.Free? && s'.pending == map[]
  {
  }

  lemma {:induction false} DeliverEffect(s: Conn)
    requires Inv(s) && s.reader.Holding?
    ensures Enabled(s, Deliver)
    ensures var s' := Do(s, Deliver);
            SameCalls(s, s') && s'.lock == s.lock && s'.pending == s.pending && !s'.reader.Holding?
  {
    HeldHasRoom(s);
    hide Inv, HasRoom;
  }

  lemma {:induction false} StepOn(s: Conn, step: Step, rest: seq<Step>)
    requires Enabled(s, step) && CanRun(Do(s, step), rest)
    ensures CanRun(s, [step] + rest) && After(s, [step] + rest) == After(Do(s, step), rest)
  {
    hide Enabled, Do;
    assert ([step] + rest)[1..] == rest;
  }

  lemma {:induction false} NoMoreSteps(s: Conn)
    ensures CanRun(s, []) && After(s, []) == s
  {
  }

  /** Whoever holds the lock releases it after one send for each pending call. */
  lemma {:induction false} UnlockFrom(s: Conn) returns (steps: seq<Step>)
    requires Inv(s) && !s.lock.Free?
    ensures |steps| == |s.pending| + 1 && Sends(steps) && CanRun(s, steps)
    ensures var s' := After(s, steps); SameCalls(s, s') && s'.lock.Free? && s'.pending == map[]
    decreases |s.pending|
  {
    hide Inv, Do, CanRun, After, HasRoom;
    if s.pending == map[] {
      steps := [FailDone] + [];
      FailDoneEffect(s);
      NoMoreSteps(Do(s, FailDone));
      StepOn(s, FailDone, []);
    } else {
      var id := SomeKey(s.pending);
      FailOneEffect(s, id);
      StepKeepsInv(s, FailOne(id));
      var rest := UnlockFrom(Do(s, FailOne(id)));
      steps := [FailOne(id)] + rest;
      StepOn(s, FailOne(id), rest);
    }
  }

  /** On a closed connection with a free lock and nothing held, every waiting call has its message. */
  lemma {:induction false} ClosedHasMessage(s: Conn, id: int)
    requires Inv(s) && s.closed && s.pending == map[] && !s.reader.Holding? && InPhase(s, id, Waiting)
    ensures Enabled(s, Receive(id))
  {
    hide LockOk, EntriesOk, ChannelsOwned;
    assert s.calls[id].chan.Some?;
    assert Owns(s, id, s.calls[id].chan.value);
  }

  lemma {:induction false} RunJoins(s: Conn, a: seq<Step>, b: seq<Step>)
    requires CanRun(s, a) && CanRun(After(s, a), b)
    ensures CanRun(s, a + b) && After(s, a + b) == After(After(s, a), b)
    decreases |a|
  {
    hide Enabled, Do;
    if a == [] {
      assert a + b == b;
    } else {
      RunJoins(Do(s, a[0]), a[1..], b);
      assert (a + b)[1..] == a[1..] + b;
    }
  }

  /** The message the read loop holds is sent first, if there is one. */
  lemma {:induction false} DeliverFrom(s: Conn) returns (steps: seq<Step>)
    requires Inv(s)
    ensures |steps| <= 1 && Sends(steps) && CanRun(s, steps)
    ensures var s' := After(s, steps);
            Inv(s') && SameCalls(s, s') && !s'.reader.Holding? && s'.pending == s.pending && s'.lock == s.lock
  {
    hide Inv, Do, CanRun, After, HasRoom, Enabled;
    if s.reader.Holding? {
      DeliverEffect(s);
      StepKeepsInv(s, Deliver);
      NoMoreSteps(Do(s, Deliver));
      steps := [Deliver] + [];
      StepOn(s, Deliver, []);
    } else {
      steps := [];
      NoMoreSteps(s);
    }
  }

  lemma {:induction false} ClosedFreeHasNoPending(s: Conn)
    requires Inv(s) && s.closed && s.lock.Free?
    ensures s.pending == map[]
  {
    hide CallsOk, EntriesOk, ChannelsOwned, IdsOk;
  }

  /**
    From every closed state, at most one send for each pending call, one for the message that is held and
    the release of the lock, and every waiting call can return.
   */
  lemma {:induction false} ClosedWakesEveryCall(steps: seq<Step>) returns (more: seq<Step>)
    requires CanRun(INITIAL, steps) && After(INITIAL, steps).closed
    ensures var s := After(INITIAL, steps);
            && |more| <= |s.pending| + 2 && Sends(more) && CanRun(s, more)
            && var s' := After(s, more);
            && s'.calls == s.calls
            && forall id :: InPhase(s', id, Waiting) ==> Enabled(s', Receive(id))
  {
    InitialInv();
    RunKeepsInv(INITIAL, steps);
    hide Inv, Do, CanRun, After, HasRoom, Enabled, InPhase, INITIAL;
    var s := After(INITIAL, steps);
    var first := DeliverFrom(s);
    var s1 := After(s, first);
    var rest: seq<Step> := [];
    if s1.lock.Free? {
      ClosedFreeHasNoPending(s1);
      NoMoreSteps(s1);
    } else {
      rest := UnlockFrom(s1);
      RunKeepsInv(s1, rest);
    }
    more := first + rest;
    RunJoins(s, first, rest);
    var s' := After(s, more);
    forall id | InPhase(s', id, Waiting)
      ensures Enabled(s', Receive(id))
    {
      ClosedHasMessage(s', id);
    }
  }
}
