/** agent.go, runLoop: one turn after its stream is open, the turns of a run, and how a run ends. */
module AgentLoop {
  import opened Wrappers
  import opened Transcript
  import opened Budget
  import opened Runs
  import opened ToolBatch
  import opened ModelCall
  import E = Executor
  import S = StreamText
  import C = AssistantContent
  import Q = Requests
  import R = TranscriptRepair
  import Collect
  import Strings = Text

  function AssistantMessage(content: seq<Block>): Message {
    Message("", Assistant, content, None, false)
  }

  /** CleanupFailed is the one end of a turn that does not call finish. */
  datatype Next = Continue | Stop | CleanupFailed

  ghost predicate Unfinished(opts: Options, s: State) {
    Sound(opts, s) && Closed(s.events) && s.finishes == []
  }

  ghost predicate EndsAs(opts: Options, s: State, next: Next) {
    match next
    case Continue => Live(opts, s)
    case Stop => Ended(opts, s)
    case CleanupFailed => Unfinished(opts, s)
  }

  /** The state after appending messages to the transcript. */
  function Extend(s: State, transcript: seq<Message>, events: seq<Event>): State {
    s.(log := s.log.(transcript := transcript), events := events)
  }

  /** More tools were run than results were shown, by at least n. */
  predicate Ahead(s: State, n: nat) {
    Shown(s.events) + n <= s.spend.toolRuns
  }

  lemma {:induction false} ExtendLives(opts: Options, s: State, transcript: seq<Message>, events: seq<Event>, shown: nat)
    requires Live(opts, s) && |s.log.transcript| <= |transcript| && Continues(s.events, events, shown) && Ahead(s, shown)
    ensures Live(opts, Extend(s, transcript, events))
  {
    hide Thrifty, Requested, Quiet, Observed, Shown;
    MeteredGrows(s, Extend(s, transcript, events));
    ViewStays(s.log, transcript);
  }

  /** Messages are appended, and no event is emitted. */
  lemma {:induction false} AppendLives(opts: Options, s: State, transcript: seq<Message>)
    requires Live(opts, s) && |s.log.transcript| <= |transcript|
    ensures Live(opts, Extend(s, transcript, s.events)) && Extend(s, transcript, s.events).events == s.events
  {
    LiveAhead(opts, s);
    hide Live, Observed, Shown, Quiet;
    ExtendLives(opts, s, transcript, s.events, 0);
  }

  lemma {:induction false} LiveAhead(opts: Options, s: State)
    requires Live(opts, s)
    ensures Ahead(s, 0)
  {
    hide Shown;
  }

  lemma {:induction false} ViewStays(log: Log, transcript: seq<Message>)
    requires Viewable(log) && |log.transcript| <= |transcript|
    ensures Viewable(log.(transcript := transcript))
  {
  }

  // ----- A stream that failed -----

  /** What a failed stream leaves: nothing, or its message so far with the results of the tools already started. */
  ghost predicate Salvaged(added: seq<Message>, got: Collect.Collected, ready: nat -> bool) {
    added == if got.uses == [] then [] else [AssistantMessage(got.content)] + Settled(got.uses, got.early, ready, |got.uses|)
  }

  /** What is left when storing the result of use k of a failed stream fails. */
  ghost predicate PartlySalvaged(added: seq<Message>, got: Collect.Collected, ready: nat -> bool) {
    exists k :: 0 <= k < |got.uses| && k in got.early
                && added == [AssistantMessage(got.content)] + Settled(got.uses, got.early, ready, k)
  }

  lemma {:induction false} ErrorOnly(opts: Options, s: State, why: RunError)
    requires Live(opts, s)
    ensures Unfinished(opts, s.(events := s.events + [Error(why)]))
  {
    hide Thrifty, Requested, Observed, Shown;
    ObservedSnoc(s.events, Error(why));
    ShownSnoc(s.events, Error(why));
    MeteredGrows(s, s.(events := s.events + [Error(why)]));
  }

  /** The causes of a stream's failure outlast what is stored after it. */
  lemma {:induction false} StreamCauseLasts(opts: Options, w: World, s: State, transcript: seq<Message>, events: seq<Event>, why: RunError)
    requires Cause(opts, w, s, why) && (why.BudgetExceeded? || why.ReceiveFailed? || why.CloseFailed?) && s.events <= events
    ensures Cause(opts, w, Extend(s, transcript, events), why)
  {
    hide Observed, OutOfBudget;
    CauseLasts(opts, w, s, s.(events := events), why);
    if why.BudgetExceeded? {
      BudgetIgnoresLog(opts, w, s.(events := events), transcript);
    }
  }

  lemma {:induction false} BudgetIgnoresLog(opts: Options, w: World, s: State, transcript: seq<Message>)
    ensures OutOfBudget(opts, w, Extend(s, transcript, s.events)) <==> OutOfBudget(opts, w, s)
  {
    hide Observed, StreamUses, Unsafe, Denied;
  }

  /** Nothing was stored, or the message so far and a beginning of the results that were shown. */
  ghost predicate Trails(s0: State, s: State, content: seq<Block>) {
    var ms0 := s0.log.transcript;
    || (s.log.transcript == ms0 && s0.events <= s.events)
    || Behind(ms0 + [AssistantMessage(content)], s0.events, s.log.transcript, s.events)
  }

  lemma {:induction false} TrailsBy(s0: State, middle: seq<Message>, transcript: seq<Message>, events: seq<Event>, s: State, got: Collect.Collected)
    requires got.uses == Uses(got.content) && s0.events <= s.events && s.log.transcript == transcript && Told(s.events) == Told(events)
    requires middle == if got.uses != [] && got.content != [] then s0.log.transcript + [AssistantMessage(got.content)] else s0.log.transcript
    requires got.uses == [] ==> transcript == middle
    requires Behind(middle, s0.events, transcript, events)
    ensures Trails(s0, s, got.content)
  {
    hide Told, Behind, Uses;
    if got.uses != [] {
      assert got.content != [] by { UsesNeedContent(got.content); }
      BehindSilent(middle, s0.events, transcript, events, s.events);
    }
  }

  /** The results of the tools already started, and the error that ends the run. */
  method CancelEarly(opts: Options, w: World, got: Collect.Collected, why: RunError, s0: State) returns (s: State, next: Next)
    requires Live(opts, s0) && Collect.EarlyOf(got.early, got.uses, w.turns(|s0.starts|).answers) && Ahead(s0, |got.early|)
    requires Cause(opts, w, s0, why) && (why.BudgetExceeded? || why.ReceiveFailed? || why.CloseFailed?)
    ensures s.log.checkpoint == s0.log.checkpoint && s0.log.transcript <= s.log.transcript
    ensures s.starts == s0.starts && s.requests == s0.requests
    ensures !next.Continue? && EndsAs(opts, s, next) && FailsFor(opts, w, s)
    ensures next.CleanupFailed? ==> got.early != map[] && w.appendFails(|s.log.transcript|)
    ensures var ready := w.turns(|s0.starts|).ready;
            if next.Stop? then s.log.transcript == s0.log.transcript + Settled(got.uses, got.early, ready, |got.uses|)
            else exists k :: 0 <= k < |got.uses| && k in got.early &&
                             s.log.transcript == s0.log.transcript + Settled(got.uses, got.early, ready, k)
    ensures got.uses == [] ==> s.log.transcript == s0.log.transcript
    ensures next.Stop? ==> s.finishes == [ErrorStop]
    ensures EndsEarly(s.events) && s0.events <= s.events && Behind(s0.log.transcript, s0.events, s.log.transcript, s.events)
  {
    hide Told, InStep, Behind, Settled, Observed, Shown, Quiet, Cause, Live, EndsAs, FailsFor, EndsEarly, Collect.EarlyOf;
    var ok, transcript, events;
    ghost var shown;
    ok, transcript, events, shown :=
      EmitCanceledEarlyToolResults(w, w.turns(|s0.starts|), got.uses, got.early, s0.log.transcript, s0.events);
    ExtendLives(opts, s0, transcript, events, shown);
    s := Extend(s0, transcript, events);
    if !ok {
      next := CleanupFailed;
      CleanupEnds(opts, w, s);
      ToldSnoc(s.events, Error(AppendFailed));
      s := s.(events := s.events + [Error(AppendFailed)]);
    } else {
      next := Stop;
      InStepIsBehind(s0.log.transcript, s0.events, transcript, events);
      StreamCauseLasts(opts, w, s0, transcript, events, why);
      CanceledEnds(opts, w, s, why);
      s := Failed(s, why, ErrorStop);
    }
    BehindSilent(s0.log.transcript, s0.events, transcript, events, s.events);
  }

  lemma {:induction false} CleanupEnds(opts: Options, w: World, s: State)
    requires Live(opts, s) && w.appendFails(|s.log.transcript|)
    ensures var s' := s.(events := s.events + [Error(AppendFailed)]);
            EndsAs(opts, s', CleanupFailed) && FailsFor(opts, w, s') && EndsEarly(s'.events)
  {
    NotFinished(opts, s);
    hide Live, Unfinished, Cause;
    ErrorOnly(opts, s, AppendFailed);
    AppendCause(opts, w, s.(events := s.events + [Error(AppendFailed)]));
  }

  lemma {:induction false} CanceledEnds(opts: Options, w: World, s: State, why: RunError)
    requires Live(opts, s) && Cause(opts, w, s, why) && Stops(why, ErrorStop) && !AboutAnswer(why)
    ensures Failed(s, why, ErrorStop).finishes == [ErrorStop]
    ensures var s' := Failed(s, why, ErrorStop); EndsAs(opts, s', Stop) && FailsFor(opts, w, s') && EndsEarly(s'.events)
  {
    NotFinished(opts, s);
    hide Live, Ended, Cause, Told, Quiet, Closed;
    FailedEnds(opts, w, s, why, ErrorStop);
  }

  /** The end of a turn whose stream failed. */
  method FailStream(opts: Options, w: World, got: Collect.Collected, why: RunError, s0: State) returns (s: State, next: Next)
    requires Live(opts, s0) && got.uses == Uses(got.content)
    requires Collect.EarlyOf(got.early, got.uses, w.turns(|s0.starts|).answers)
    requires Cause(opts, w, s0, why) && (why.BudgetExceeded? || why.ReceiveFailed? || why.CloseFailed?)
    requires Ahead(s0, |got.early|)
    ensures s.log.checkpoint == s0.log.checkpoint && s0.log.transcript <= s.log.transcript
    ensures s.starts == s0.starts && s.requests == s0.requests
    ensures !next.Continue? && EndsAs(opts, s, next) && FailsFor(opts, w, s)
    ensures next.CleanupFailed? ==> got.early != map[] && w.appendFails(|s.log.transcript|)
    ensures !w.appendFails(|s0.log.transcript|) ==>
              var added, ready := s.log.transcript[|s0.log.transcript|..], w.turns(|s0.starts|).ready;
              if next.Stop? then Salvaged(added, got, ready) else PartlySalvaged(added, got, ready)
    ensures next.Stop? ==> s.finishes == [ErrorStop]
    ensures EndsEarly(s.events) && Trails(s0, s, got.content)
  {
    hide Told, InStep, Behind, Trails, Uses, Settled, Observed, Shown, Quiet, Cause, Live, Ended, Unfinished,
      Collect.EarlyOf, Salvaged, PartlySalvaged;
    ghost var before := s0.log.transcript;
    s := s0;
    if got.uses != [] && got.content != [] {
      if w.appendFails(|s.log.transcript|) {
        AppendCause(opts, w, s);
        FailedEnds(opts, w, s, AppendFailed, ErrorStop);
        NotFinished(opts, s);
        NothingStored(s, Failed(s, AppendFailed, ErrorStop), got.content);
        return Failed(s, AppendFailed, ErrorStop), Stop;
      }
      AppendLives(opts, s, s.log.transcript + [AssistantMessage(got.content)]);
      StreamCauseLasts(opts, w, s, s.log.transcript + [AssistantMessage(got.content)], s.events, why);
      s := Extend(s, s.log.transcript + [AssistantMessage(got.content)], s.events);
    }
    ghost var middle := s.log.transcript;
    s, next := CancelEarly(opts, w, got, why, s);
    SalvagedBy(before, middle, s.log.transcript, got, w.turns(|s0.starts|).ready, next.Stop?);
    TrailsBy(s0, middle, s.log.transcript, s.events, s, got);
  }

  lemma {:induction false} NothingStored(s0: State, s: State, content: seq<Block>)
    requires s.log == s0.log && s0.events <= s.events
    ensures Trails(s0, s, content)
  {
    hide Behind;
  }

  lemma {:induction false} AppendCause(opts: Options, w: World, s: State)
    requires w.appendFails(|s.log.transcript|)
    ensures Cause(opts, w, s, AppendFailed)
  {
  }

  lemma {:induction false} SalvagedBy(
      before: seq<Message>, middle: seq<Message>, after: seq<Message>, got: Collect.Collected, ready: nat -> bool, ok: bool)
    requires got.uses == Uses(got.content)
    requires middle == if got.uses != [] && got.content != [] then before + [AssistantMessage(got.content)] else before
    requires if ok then after == middle + Settled(got.uses, got.early, ready, |got.uses|)
             else exists k :: 0 <= k < |got.uses| && k in got.early && after == middle + Settled(got.uses, got.early, ready, k)
    ensures before <= after
    ensures if ok then Salvaged(after[|before|..], got, ready) else PartlySalvaged(after[|before|..], got, ready)
  {
    assert got.uses == [] ==> Settled(got.uses, got.early, ready, |got.uses|) == [];
    hide Settled;
    if got.uses != [] {
      assert got.content != [] by { UsesNeedContent(got.content); }
      assert after[|before|..] == [AssistantMessage(got.content)] + after[|middle|..];
    }
  }

  // ----- A final answer -----

  /** finalRetryPrompt */
  function FinalRetryPrompt(reason: string): string {
    var detail := if Strings.TrimSpace(reason) == "" then "the final answer is not ready" else Strings.TrimSpace(reason);
    "Your previous final answer cannot be accepted yet: " + detail
    + "\nUse the available tools to satisfy this requirement, then provide the final answer."
  }

  /** outputRetryPrompt */
  function OutputRetryPrompt(detail: string): string {
    "Your previous final answer did not satisfy the required structured output contract: " + detail
    + "\nReturn only valid JSON that satisfies the schema. Do not include markdown fences, prose, or any text outside the JSON value."
  }

  /** The hook let the answer pass, it is valid, and it is the run's result. */
  predicate Accepted(input: TurnInput, s: State, text: string) {
    && input.gate.Ruled? && input.gate.denyReason == "" && input.invalid.None? && !input.distillFails && !input.stopHookFails
    && s.finishes == [ResultStop] && s.events != [] && s.events[|s.events| - 1] == Result(text, s.spend.usage)
  }

  predicate Acceptable(input: TurnInput) {
    input.gate.Ruled? && input.gate.denyReason == "" && input.invalid.None?
  }

  /** The answer is denied and may be repaired. */
  predicate Repairs(opts: Options, input: TurnInput, s: State) {
    input.gate.Ruled? && input.gate.denyReason != "" && s.finalDenials < DenialLimit(opts)
  }

  /** The answer is let pass, but it breaks the output contract and may be revised. */
  predicate Revises(opts: Options, input: TurnInput, s: State) {
    && input.gate.Ruled? && input.gate.denyReason == ""
    && input.invalid.Some? && s.outputRetries < RetryLimit(opts)
  }

  /** A repair prompt is appended and the run goes on. */
  method AskAgain(opts: Options, w: World, prompt: string, s0: State) returns (s: State, next: Next)
    requires Live(opts, s0)
    ensures s.log.checkpoint == s0.log.checkpoint && s.starts == s0.starts && s.requests == s0.requests
    ensures EndsAs(opts, s, next) && !next.CleanupFailed?
    ensures next.Continue? <==> !w.appendFails(|s0.log.transcript|)
    ensures next.Continue? ==> s.log.transcript == s0.log.transcript + [TextMessage(User, prompt)]
    ensures s.finalDenials == s0.finalDenials && s.outputRetries == s0.outputRetries
    ensures next.Stop? ==> s.log == s0.log && Broken(opts, w, s)
    ensures Told(s.events) == Told(s0.events)
  {
    hide Live, Ended, Cause, Told;
    if w.appendFails(|s0.log.transcript|) {
      AppendCause(opts, w, s0);
      FailedEnds(opts, w, s0, AppendFailed, ErrorStop);
      return Failed(s0, AppendFailed, ErrorStop), Stop;
    }
    AppendLives(opts, s0, s0.log.transcript + [TextMessage(User, prompt)]);
    return Extend(s0, s0.log.transcript + [TextMessage(User, prompt)], s0.events), Continue;
  }

  lemma {:induction false} CountLives(opts: Options, s: State, denials: nat, retries: nat)
    requires Live(opts, s) && denials <= DenialLimit(opts) && retries <= RetryLimit(opts)
    ensures Live(opts, s.(finalDenials := denials, outputRetries := retries))
  {
    hide Thrifty, Requested, Quiet, Observed, Shown;
  }

  /** A turn without tool uses. */
  method Finalize(opts: Options, w: World, text: string, s0: State) returns (s: State, next: Next)
    requires Live(opts, s0)
    ensures s.log.checkpoint == s0.log.checkpoint && s.starts == s0.starts && s.requests == s0.requests
    ensures EndsAs(opts, s, next) && !next.CleanupFailed?
    ensures next.Continue? <==> !w.appendFails(|s0.log.transcript|) && (Repairs(opts, w.turns(|s0.starts|), s0) || Revises(opts, w.turns(|s0.starts|), s0))
    ensures next.Continue? && Repairs(opts, w.turns(|s0.starts|), s0) ==>
              && s.log.transcript == s0.log.transcript + [TextMessage(User, FinalRetryPrompt(w.turns(|s0.starts|).gate.denyReason))]
              && s.finalDenials == s0.finalDenials + 1 && s.outputRetries == s0.outputRetries
    ensures next.Continue? && Revises(opts, w.turns(|s0.starts|), s0) ==>
              && s.log.transcript == s0.log.transcript + [TextMessage(User, OutputRetryPrompt(w.turns(|s0.starts|).invalid.value))]
              && s.finalDenials == s0.finalDenials && s.outputRetries == s0.outputRetries + 1
    ensures var input := w.turns(|s0.starts|);
            Accepted(input, s, text) <==> Acceptable(input) && !input.distillFails && !input.stopHookFails
    ensures next.Stop? ==> s.log == s0.log && (Broken(opts, w, s) || Accepted(w.turns(|s0.starts|), s, text))
    ensures Accepted(w.turns(|s0.starts|), s, text) ==>
              s.events == s0.events + Notes(w.turns(|s0.starts|)) + [Result(text, s.spend.usage)]
    ensures Told(s.events) == Told(s0.events)
  {
    hide Notes, Told, Live, Ended, FinalRetryPrompt, OutputRetryPrompt, Cause;
    var input := w.turns(|s0.starts|);
    s := s0;
    LiveBounds(opts, s);
    if input.gate.GateFailed? {
      SaidCause(opts, w, s, HookFailed);
      FailedEnds(opts, w, s, HookFailed, ErrorStop);
      return Failed(s, HookFailed, ErrorStop), Stop;
    }
    if input.gate.denyReason != "" {
      if s.finalDenials >= DenialLimit(opts) {
        RefusalCause(opts, w, s, FinalDenied);
        FailedEnds(opts, w, s, FinalDenied, PolicyStop);
        return Failed(s, FinalDenied, PolicyStop), Stop;
      }
      CountLives(opts, s, s.finalDenials + 1, s.outputRetries);
      s := s.(finalDenials := s.finalDenials + 1);
      s, next := AskAgain(opts, w, FinalRetryPrompt(input.gate.denyReason), s);
      return;
    }
    if input.invalid.Some? {
      if s.outputRetries < RetryLimit(opts) {
        CountLives(opts, s, s.finalDenials, s.outputRetries + 1);
        s := s.(outputRetries := s.outputRetries + 1);
        s, next := AskAgain(opts, w, OutputRetryPrompt(input.invalid.value), s);
        return;
      }
      RefusalCause(opts, w, s, OutputInvalid);
      FailedEnds(opts, w, s, OutputInvalid, ErrorStop);
      return Failed(s, OutputInvalid, ErrorStop), Stop;
    }
    if input.distillFails {
      SaidCause(opts, w, s, DistillFailed);
      FailedEnds(opts, w, s, DistillFailed, ErrorStop);
      return Failed(s, DistillFailed, ErrorStop), Stop;
    }
    s := Deliver(opts, w, text, s);
    next := Stop;
  }

  lemma {:induction false} RefusalCause(opts: Options, w: World, s: State, why: RunError)
    requires var input := w.turns(|s.starts|);
             || (why.FinalDenied? && input.gate.Ruled? && input.gate.denyReason != "" && s.finalDenials == DenialLimit(opts))
             || (why.OutputInvalid? && input.invalid.Some? && s.outputRetries == RetryLimit(opts))
    ensures Cause(opts, w, s, why)
  {
  }

  lemma {:induction false} LiveBounds(opts: Options, s: State)
    requires Live(opts, s)
    ensures s.finalDenials <= DenialLimit(opts) && s.outputRetries <= RetryLimit(opts)
  {
  }

  /** The events about memory candidates. */
  function Notes(input: TurnInput): seq<Event> {
    if !input.candidates then []
    else [MemoryCandidates] + (if input.handlerFails then [MemoryCandidateHandlerError] else [])
  }

  /** The memory candidates, finish, and then the result. */
  method Deliver(opts: Options, w: World, text: string, s0: State) returns (s: State)
    requires Live(opts, s0)
    ensures s.log == s0.log && s.starts == s0.starts && s.requests == s0.requests
    ensures Ended(opts, s) && s.spend == s0.spend && s.events != []
    ensures s.events == s0.events + Notes(w.turns(|s0.starts|)) +
                        [if w.turns(|s0.starts|).stopHookFails then Error(StopHookFailed) else Result(text, s.spend.usage)]
    ensures s.finishes == [ResultStop]
    ensures w.turns(|s0.starts|).stopHookFails ==> Broken(opts, w, s)
    ensures Told(s.events) == Told(s0.events)
  {
    hide Told, Live, Ended, Broken;
    var input := w.turns(|s0.starts|);
    s := s0;
    if input.candidates {
      EmitLives(opts, s, MemoryCandidates);
      s := Emit(s, MemoryCandidates);
      if input.handlerFails {
        EmitLives(opts, s, MemoryCandidateHandlerError);
        s := Emit(s, MemoryCandidateHandlerError);
      }
    }
    var last := if input.stopHookFails then Error(StopHookFailed) else Result(text, s.spend.usage);
    NotFinished(opts, s);
    DeliveredEnds(opts, w, s, last);
    ToldSnoc(s.events, last);
    s := s.(finishes := s.finishes + [ResultStop], events := s.events + [last]);
  }

  lemma {:induction false} NotFinished(opts: Options, s: State)
    requires Live(opts, s)
    ensures s.finishes == []
  {
  }

  lemma {:induction false} DeliveredEnds(opts: Options, w: World, s: State, last: Event)
    requires Live(opts, s) && (last.Result? || (last == Error(StopHookFailed) && w.turns(|s.starts|).stopHookFails))
    ensures var s' := s.(finishes := s.finishes + [ResultStop], events := s.events + [last]);
            Ended(opts, s') && (last.Error? ==> Broken(opts, w, s'))
  {
    hide Thrifty, Requested, Observed, Shown, OutOfBudget;
    ObservedSnoc(s.events, last);
    ShownSnoc(s.events, last);
    MeteredGrows(s, s.(finishes := s.finishes + [ResultStop], events := s.events + [last]));
  }

  // ----- One turn -----

  /** The tools of the turn's stream keep the ids of their uses. */
  ghost predicate TurnKeepsIDs(opts: Options, input: TurnInput) {
    IDsKept(StreamUses(Heeded(input).events, opts), input.answers)
  }

  /** The text of the turn's stream, as the text normaliser gives it out. */
  function Answer(opts: Options, input: TurnInput): string {
    S.Flat(S.Outputs(S.FRESH, Collect.Chunks(Heeded(input).events), opts.u))
  }

  /** The message of the turn's stream, unless the stream says nothing. */
  function Spoken(opts: Options, input: TurnInput): (ms: seq<Message>)
    ensures |ms| <= 1
  {
    var content := Collect.HearAll(Heeded(input).events, opts).content;
    if content == [] then [] else [AssistantMessage(content)]
  }

  /**
    That message holds the tool uses of the stream and its text, as they were told to the caller, and is
    there exactly when the stream has a tool use, an artifact or text.
   */
  lemma {:induction false} SpokenIsHeard(opts: Options, input: TurnInput)
    ensures var stream, ms := Heeded(input).events, Spoken(opts, input);
            && (ms == [] <==> StreamUses(stream, opts) == [] && !Collect.ShowsArtifact(stream) && Answer(opts, input) == "")
            && (ms != [] ==>
                  && ms[0].role.Assistant? && UsesOf(ms[0]) == StreamUses(stream, opts) && C.Plain(ms[0].content) == Answer(opts, input)
                  && ms[0].content == Collect.Blocks(Collect.HearAll(stream, opts).events))
            && Kept(ms) == Told(Collect.HearAll(stream, opts).events)
  {
    hide Collect.HearAll, StreamUses, Uses, C.Plain, Collect.Blocks, Told, Kept, Answer, Collect.ShowsArtifact;
    var stream := Heeded(input).events;
    Collect.HeardIsTold(stream, opts);
    Collect.NothingKeptIff(stream, opts);
    AnswerOf(opts, input);
    KeptOne(AssistantMessage(Collect.HearAll(stream, opts).content));
    assert Kept([]) == [] && SaidAll([]) == [] by { NothingKept(); }
  }

  lemma {:induction false} NothingKept()
    ensures Kept([]) == [] && SaidAll([]) == []
  {
  }

  /** The messages are the one prompt that asks for another final answer. */
  predicate AsksAgain(input: TurnInput, ms: seq<Message>) {
    && input.gate.Ruled?
    && if input.gate.denyReason != "" then ms == [TextMessage(User, FinalRetryPrompt(input.gate.denyReason))]
       else input.invalid.Some? && ms == [TextMessage(User, OutputRetryPrompt(input.invalid.value))]
  }

  /** What a turn adds when the run goes on: its message, and then its results in use order, or one prompt. */
  ghost predicate Leaves(opts: Options, input: TurnInput, added: seq<Message>) {
    var spoken, uses := Spoken(opts, input), StreamUses(Heeded(input).events, opts);
    && spoken <= added
    && var rest := added[|spoken|..];
    if uses == [] then AsksAgain(input, rest) else |rest| == |uses| && ResultsOf(rest, uses, input.answers)
  }

  lemma {:induction false} SpokenPaired(opts: Options, input: TurnInput)
    requires StreamUses(Heeded(input).events, opts) == []
    ensures Paired(Spoken(opts, input))
  {
    SpokenIsHeard(opts, input);
    hide Spoken, StreamUses, UsesOf, Collect.ShowsArtifact, Answer, C.Plain, Collect.Blocks, Told, Kept;
    var ms := Spoken(opts, input);
    if ms != [] {
      PairedPlain(ms[0]);
      assert ms == [ms[0]];
    }
  }

  lemma {:induction false} PromptPaired(input: TurnInput, ms: seq<Message>)
    requires AsksAgain(input, ms)
    ensures |ms| == 1 && Paired(ms)
  {
    hide FinalRetryPrompt, OutputRetryPrompt;
    PairedPlain(ms[0]);
  }

  lemma {:induction false} BatchPaired(opts: Options, input: TurnInput, results: seq<Message>)
    requires var uses := StreamUses(Heeded(input).events, opts);
             uses != [] && |results| == |uses| && ResultsOf(results, uses, input.answers) && TurnKeepsIDs(opts, input)
    ensures Paired(Spoken(opts, input) + results)
  {
    SpokenIsHeard(opts, input);
    hide Spoken, StreamUses, UsesOf, Collect.ShowsArtifact, Answer, C.Plain, Collect.Blocks, Told, Kept, ResultsOf, IDsKept;
    var ms := Spoken(opts, input);
    ResultsAnswer(results, StreamUses(Heeded(input).events, opts), input.answers);
    PairedGroup(ms[0], results);
    assert ms == [ms[0]];
  }

  /** What a turn adds is paired. */
  lemma {:induction false} LeavesPaired(opts: Options, input: TurnInput, before: seq<Message>, after: seq<Message>)
    requires before <= after && Leaves(opts, input, after[|before|..])
    ensures |before| < |after|
    ensures Paired(before) && TurnKeepsIDs(opts, input) ==> Paired(after)
  {
    hide Spoken, StreamUses, ResultsOf, AsksAgain, Paired, TurnKeepsIDs;
    var added, spoken := after[|before|..], Spoken(opts, input);
    var rest := added[|spoken|..];
    assert added == spoken + rest && after == before + added;
    if StreamUses(Heeded(input).events, opts) == [] {
      PromptPaired(input, rest);
      SpokenPaired(opts, input);
      PairedConcat(spoken, rest);
    } else if TurnKeepsIDs(opts, input) {
      BatchPaired(opts, input, rest);
    }
    if Paired(before) && Paired(added) {
      PairedConcat(before, added);
    }
  }

  /** What the turn has added to the transcript: all of it if the run goes on, its message if that was answered for. */
  ghost predicate Recorded(opts: Options, input: TurnInput, before: seq<Message>, s: State, next: Next) {
    && before <= s.log.transcript
    && (next.Continue? ==> Leaves(opts, input, s.log.transcript[|before|..]))
    && (!next.Continue? && !EndsEarly(s.events) ==> s.log.transcript == before + Spoken(opts, input))
  }

  predicate Delivered(events: seq<Event>) {
    events != [] && events[|events| - 1].Result?
  }

  /**
    When the run goes on, and at a result, the session has kept exactly what the caller was told;
    otherwise a beginning of it.
   */
  ghost predicate Truthful(ms0: seq<Message>, events0: seq<Event>, s: State, next: Next) {
    if next.Continue? || Delivered(s.events) then InStep(ms0, events0, s.log.transcript, s.events)
    else Behind(ms0, events0, s.log.transcript, s.events)
  }

  ghost predicate TurnGrows(opts: Options, input: TurnInput, s0: State, s: State, next: Next) {
    && s0.log.transcript <= s.log.transcript && s.starts == s0.starts
    && s.log.checkpoint == s0.log.checkpoint && s.requests == s0.requests
    && Recorded(opts, input, s0.log.transcript, s, next) && Truthful(s0.log.transcript, s0.events, s, next)
  }

  /** The last event is an error that has a cause, which finish was told if it was called. */
  ghost predicate FailsFor(opts: Options, w: World, s: State) {
    && s.events != [] && s.events[|s.events| - 1].Error?
    && Cause(opts, w, s, s.events[|s.events| - 1].why)
    && (s.finishes != [] ==> Stops(s.events[|s.events| - 1].why, s.finishes[0]))
  }

  ghost predicate TurnEnds(opts: Options, w: World, input: TurnInput, s: State, next: Next) {
    && EndsAs(opts, s, next)
    && (!next.Continue? ==> FailsFor(opts, w, s) || (next.Stop? && Accepted(input, s, Answer(opts, input))))
    && (next.CleanupFailed? ==> w.appendFails(|s.log.transcript|))
  }

  lemma {:induction false} BrokenTurn(opts: Options, w: World, input: TurnInput, s: State)
    requires Broken(opts, w, s)
    ensures TurnEnds(opts, w, input, s, Stop)
  {
    hide Sound, Cause, Accepted;
  }

  /** The budget check behind the stream passes. */
  predicate Affords(opts: Options, w: World, s: State) {
    Allows(opts.budget, Snapshot(w.elapsed(s.spend.checks), s.spend.turns, s.spend.modelCalls, s.spend.toolCalls, s.spend.usage))
  }

  /**
    A stream was read to the end. If the budget allows it and the store accepts it, its message is the
    first to be stored, and then what follows from it; otherwise nothing is stored and the run ends.
   */
  ghost predicate Stored(opts: Options, w: World, input: TurnInput, s0: State, s: State, next: Next) {
    var before, spoken := s0.log.transcript, Spoken(opts, input);
    if Affords(opts, w, s0) && (spoken == [] || !w.appendFails(|before|)) then
      && before + spoken <= s.log.transcript
      && Recorded(opts, input, before, s, next)
      && Truthful(before + spoken, s0.events, s, next)
    else
      !next.Continue? && s.log.transcript == before && EndsEarly(s.events) && s0.events <= s.events
  }

  /** The message of a stream is appended, if it holds anything. */
  method StoreMessage(opts: Options, w: World, content: seq<Block>, s0: State) returns (s: State, ok: bool)
    requires Live(opts, s0)
    ensures ok <==> content == [] || !w.appendFails(|s0.log.transcript|)
    ensures ok ==>
              && Live(opts, s)
              && s == Extend(s0, s0.log.transcript + (if content == [] then [] else [AssistantMessage(content)]), s0.events)
    ensures !ok ==> s == Failed(s0, AppendFailed, ErrorStop) && Broken(opts, w, s)
  {
    hide Live, Broken, Cause, Told, Quiet, Closed;
    if content == [] {
      assert s0.log.transcript + [] == s0.log.transcript;
      return s0, true;
    }
    if w.appendFails(|s0.log.transcript|) {
      AppendCause(opts, w, s0);
      FailedEnds(opts, w, s0, AppendFailed, ErrorStop);
      return Failed(s0, AppendFailed, ErrorStop), false;
    }
    AppendLives(opts, s0, s0.log.transcript + [AssistantMessage(content)]);
    return Extend(s0, s0.log.transcript + [AssistantMessage(content)], s0.events), true;
  }

  /** The rest of a turn, once its stream was read to the end. */
  method Conclude(opts: Options, w: World, got: Collect.Collected, s0: State) returns (s: State, next: Next)
    requires Live(opts, s0) && got.uses == Uses(got.content) == StreamUses(Heeded(w.turns(|s0.starts|)).events, opts)
    requires got.content == Collect.HearAll(Heeded(w.turns(|s0.starts|)).events, opts).content
    requires C.Plain(got.content) == Answer(opts, w.turns(|s0.starts|))
    requires Collect.EarlyOf(got.early, got.uses, w.turns(|s0.starts|).answers) && Ahead(s0, |got.early|)
    requires Collect.SafeStarted(got.early, got.uses, opts.safe) && Collect.OnlySafe(got.early, got.uses, opts.safe)
    ensures s.log.checkpoint == s0.log.checkpoint && s.starts == s0.starts && s.requests == s0.requests
    ensures Stored(opts, w, w.turns(|s0.starts|), s0, s, next) && TurnEnds(opts, w, w.turns(|s0.starts|), s, next)
  {
    hide Live, Ended, Unfinished, Quiet, Observed, FinalRetryPrompt, OutputRetryPrompt, Paired, Uses, Answer,
      StreamUses, IDsKept, ResultsOf, Allows, C.Plain, Broken, Denied, Metered, TurnEnds, Cause, Shown, Told, InStep, Behind,
      Collect.SafeStarted, Collect.OnlySafe, Collect.EarlyOf, Collect.HearAll, Recorded, Truthful;
    var input := w.turns(|s0.starts|);
    var ok, _, sp := CheckBudget(opts.budget, w, s0.spend, 0, 0);
    SpendLives(opts, s0, sp);
    s := s0.(spend := sp);
    if !ok {
      BudgetCause(opts, w, s, 0);
      FailedEnds(opts, w, s, BudgetExceeded, BudgetStop);
      s, next := Failed(s, BudgetExceeded, BudgetStop), Stop;
      BrokenTurn(opts, w, input, s);
      return;
    }
    s, ok := StoreMessage(opts, w, got.content, s);
    if !ok {
      next := Stop;
      BrokenTurn(opts, w, input, s);
      return;
    }
    assert s.log.transcript == s0.log.transcript + Spoken(opts, input);
    hide Spoken, Affords, Stored;
    ghost var answered := s;
    if got.uses == [] {
      s, next := Finalize(opts, w, C.Plain(got.content), s);
      FinalTurn(opts, w, input, s, next);
      FinalStored(opts, w, input, s0, answered, s, next);
      return;
    }
    assert got.content != [] by { UsesNeedContent(got.content); }
    s, next := AnswerUses(opts, w, got, s);
    FinalTurn(opts, w, input, s, next);
    BatchStored(opts, w, input, s0, answered, s, next);
  }

  lemma {:induction false} FinalStored(opts: Options, w: World, input: TurnInput, s0: State, s1: State, s: State, next: Next)
    requires Affords(opts, w, s0) && (Spoken(opts, input) == [] || !w.appendFails(|s0.log.transcript|))
    requires s1.log.transcript == s0.log.transcript + Spoken(opts, input) && s1.events == s0.events
    requires StreamUses(Heeded(input).events, opts) == [] && Told(s.events) == Told(s1.events)
    requires if next.Continue? then s1.log.transcript <= s.log.transcript && AsksAgain(input, s.log.transcript[|s1.log.transcript|..])
             else s.log == s1.log
    ensures Stored(opts, w, input, s0, s, next)
  {
    hide Spoken, Affords, StreamUses, Told, InStep, Behind, AsksAgain;
    var ms1, ms := s1.log.transcript, s.log.transcript;
    if next.Continue? {
      PromptIsSilent(input, ms1, ms, s0.events, s.events);
      assert ms[|s0.log.transcript|..][|Spoken(opts, input)|..] == ms[|ms1|..];
    } else {
      InStepSilent(ms1, s0.events, s.events);
      InStepIsBehind(ms1, s0.events, ms1, s.events);
    }
  }

  lemma {:induction false} PromptIsSilent(input: TurnInput, ms1: seq<Message>, ms: seq<Message>, events0: seq<Event>, events: seq<Event>)
    requires ms1 <= ms && AsksAgain(input, ms[|ms1|..]) && Told(events) == Told(events0)
    ensures InStep(ms1, events0, ms, events)
  {
    hide Told, InStep, FinalRetryPrompt, OutputRetryPrompt;
    var m := ms[|ms1|..][0];
    assert ms == ms1 + [m] && Told(events0) + [] == Told(events0);
    InStepBy(ms1, m, events0, events);
  }

  lemma {:induction false} BatchStored(opts: Options, w: World, input: TurnInput, s0: State, s1: State, s: State, next: Next)
    requires Affords(opts, w, s0) && (Spoken(opts, input) == [] || !w.appendFails(|s0.log.transcript|))
    requires s1.log.transcript == s0.log.transcript + Spoken(opts, input) && s1.events == s0.events && s1.log.transcript <= s.log.transcript
    requires var uses, ms1 := StreamUses(Heeded(input).events, opts), s1.log.transcript;
             && uses != []
             && if next.Continue? then
                  && |s.log.transcript| == |ms1| + |uses| && ResultsOf(s.log.transcript[|ms1|..], uses, input.answers)
                  && InStep(ms1, s1.events, s.log.transcript, s.events)
                else EndsEarly(s.events) && Behind(ms1, s1.events, s.log.transcript, s.events)
    ensures Stored(opts, w, input, s0, s, next)
  {
    hide Spoken, Affords, StreamUses, Told, InStep, Behind, ResultsOf, AsksAgain;
    var ms := s.log.transcript;
    assert ms[|s0.log.transcript|..][|Spoken(opts, input)|..] == ms[|s1.log.transcript|..];
  }

  lemma {:induction false} FinalTurn(opts: Options, w: World, input: TurnInput, s: State, next: Next)
    requires EndsAs(opts, s, next) && !next.CleanupFailed?
    requires next.Stop? ==> Broken(opts, w, s) || Accepted(input, s, Answer(opts, input))
    ensures TurnEnds(opts, w, input, s, next)
  {
    hide Sound, Cause, Accepted, Answer;
  }

  lemma {:induction false} FailedTurn(opts: Options, w: World, input: TurnInput, s: State, next: Next)
    requires EndsAs(opts, s, next) && !next.Continue? && FailsFor(opts, w, s)
    requires next.CleanupFailed? ==> w.appendFails(|s.log.transcript|)
    ensures TurnEnds(opts, w, input, s, next)
  {
    hide Sound, Cause, Accepted, Answer, Ended, Unfinished;
  }

  lemma {:induction false} UsesNeedContent(content: seq<Block>)
    requires Uses(content) != []
    ensures content != []
  {
  }

  /** The budget check of the tool batch, and the batch. */
  method AnswerUses(opts: Options, w: World, got: Collect.Collected, s0: State) returns (s: State, next: Next)
    requires Live(opts, s0) && Collect.EarlyOf(got.early, got.uses, w.turns(|s0.starts|).answers) && Ahead(s0, |got.early|)
    requires got.uses == StreamUses(Heeded(w.turns(|s0.starts|)).events, opts)
    requires Collect.SafeStarted(got.early, got.uses, opts.safe) && Collect.OnlySafe(got.early, got.uses, opts.safe)
    ensures s0.log.transcript <= s.log.transcript && s.starts == s0.starts
    ensures s.log.checkpoint == s0.log.checkpoint && s.requests == s0.requests
    ensures EndsAs(opts, s, next) && !next.CleanupFailed?
    ensures next.Stop? ==> Broken(opts, w, s)
    ensures next.Continue? ==> s.spend.toolRuns == s0.spend.toolRuns + |got.uses| - |got.early|
    ensures next.Continue? ==>
              && |s.log.transcript| == |s0.log.transcript| + |got.uses|
              && ResultsOf(s.log.transcript[|s0.log.transcript|..], got.uses, w.turns(|s0.starts|).answers)
    ensures if next.Continue? then InStep(s0.log.transcript, s0.events, s.log.transcript, s.events)
            else EndsEarly(s.events) && Behind(s0.log.transcript, s0.events, s.log.transcript, s.events)
  {
    hide Told, InStep, Behind, Live, Ended, Quiet, ResultsOf, Allows, Observed, Shown, Denied, Cause, StreamUses, Unsafe,
      Collect.SafeStarted, Collect.OnlySafe, Collect.EarlyOf;
    RemainingAreUnsafe(got.uses, got.early, opts.safe);
    var remaining := |got.uses| - |got.early|;
    var ok, _, sp := CheckBudget(opts.budget, w, s0.spend, 0, remaining);
    SpendLives(opts, s0, sp);
    s := s0.(spend := sp);
    if !ok {
      BatchCause(opts, w, s);
      FailedEnds(opts, w, s, BudgetExceeded, BudgetStop);
      BehindBy(s.log.transcript, s.events, Failed(s, BudgetExceeded, BudgetStop).events);
      return Failed(s, BudgetExceeded, BudgetStop), Stop;
    }
    var transcript, events, runs;
    ghost var shown;
    ok, transcript, events, runs, shown :=
      RunTools(opts, w, w.turns(|s0.starts|), got.uses, got.early, s.log.transcript, s.events);
    ToolsLive(opts, s, remaining, runs);
    s := s.(spend := sp.(toolCalls := sp.toolCalls + remaining, toolRuns := sp.toolRuns + runs));
    ExtendLives(opts, s, transcript, events, shown);
    s := Extend(s, transcript, events);
    if !ok {
      AppendCause(opts, w, s);
      FailedEnds(opts, w, s, AppendFailed, ErrorStop);
      BehindSilent(s0.log.transcript, s0.events, transcript, events, Failed(s, AppendFailed, ErrorStop).events);
      return Failed(s, AppendFailed, ErrorStop), Stop;
    }
    next := Continue;
  }

  /** The budget check of the batch failed. */
  lemma {:induction false} BatchCause(opts: Options, w: World, s: State)
    requires Denied(opts.budget, w, s.spend, 0, Unsafe(StreamUses(Heeded(w.turns(|s.starts|)).events, opts), opts.safe), s.spend.usage)
    ensures Cause(opts, w, s, BudgetExceeded)
  {
    hide Observed, Denied, StreamUses, Unsafe;
  }

  lemma {:induction false} ToolsLive(opts: Options, s: State, calls: nat, runs: nat)
    requires Live(opts, s) && runs <= calls
    requires opts.budget.Some? ==> !Over(opts.budget.value.maxToolCalls, s.spend.toolCalls + calls)
    ensures Live(opts, s.(spend := s.spend.(toolCalls := s.spend.toolCalls + calls, toolRuns := s.spend.toolRuns + runs)))
  {
    hide Allows, Requested, Quiet, Observed, Shown;
  }

  /** The state at the start of a turn. */
  function Begun(s: State): State {
    s.(starts := s.starts + [s.log], spend := s.spend.(turns := |s.starts| + 1))
  }

  lemma {:induction false} BegunLives(opts: Options, s: State)
    requires Live(opts, s) && |s.starts| < TurnLimit(opts)
    ensures Live(opts, Begun(s)) && |Begun(s).requests| + 2 <= 2 * |Begun(s).starts|
  {
    hide Allows, Requested, Quiet, Observed, Shown;
  }

  lemma {:induction false} SomeSafe(uses: seq<ToolUse>, safe: ToolUse -> bool)
    requires uses != [] && safe(uses[|uses| - 1])
    ensures Unsafe(uses, safe) < |uses|
  {
    UnsafeFew(uses[..|uses| - 1], safe);
  }

  lemma {:induction false} UnsafeFew(uses: seq<ToolUse>, safe: ToolUse -> bool)
    ensures Unsafe(uses, safe) <= |uses|
  {
    if uses != [] {
      UnsafeFew(uses[..|uses| - 1], safe);
    }
  }

  /** A safe use among the first events of a stream is one of the stream. */
  lemma {:induction false} SafeInStream(stream: seq<StreamEvent>, n: nat, opts: Options)
    requires n <= |stream| && Unsafe(StreamUses(stream[..n], opts), opts.safe) < |StreamUses(stream[..n], opts)|
    ensures Unsafe(StreamUses(stream, opts), opts.safe) < |StreamUses(stream, opts)|
    decreases |stream|
  {
    if n == |stream| {
      assert stream[..n] == stream;
    } else {
      var front := stream[..|stream| - 1];
      assert front[..n] == stream[..n];
      SafeInStream(front, n, opts);
      var uses := StreamUses(stream, opts);
      if stream[|stream| - 1].UseDone? {
        assert uses[..|uses| - 1] == StreamUses(front, opts);
      } else {
        assert uses == StreamUses(front, opts);
      }
    }
  }

  /** The cause of a failed stream, with the tokens it reported. */
  lemma {:induction false} CollectCause(opts: Options, w: World, s: State, sp: Spend, usage: Usage, events: seq<Event>, why: RunError)
    requires Metered(s) && CalledNow(s) && sp.usage == s.spend.usage
    requires match why
             case BudgetExceeded =>
               var uses := StreamUses(Heeded(w.turns(|s.starts|)).events, opts);
               Denied(opts.budget, w, sp, 0, 1, sp.usage) && Unsafe(uses, opts.safe) < |uses|
             case ReceiveFailed => Heeded(w.turns(|s.starts|)).fails
             case CloseFailed => w.turns(|s.starts|).closeFails
             case _ => false
    ensures Cause(opts, w, s.(spend := sp.(usage := usage), events := s.events + events), why)
  {
    hide Observed, StreamUses, Unsafe;
    if why.BudgetExceeded? {
      var all, at := s.events + events, s.requests[|s.requests| - 1].at;
      assert all[..at] == s.events[..at];
    }
  }

  lemma {:induction false} LiveThrifty(opts: Options, s: State)
    requires Live(opts, s)
    ensures Thrifty(opts.budget, s.spend)
  {
  }

  lemma {:induction false} RanEarlySame(sp0: Spend, sp: Spend, n: nat)
    requires Collect.RanEarly(sp0, sp, n)
    ensures sp.usage == sp0.usage
  {
  }

  /** The state after a stream was read. */
  function Heard(s: State, sp: Spend, usage: Usage, events: seq<Event>): State {
    s.(spend := sp.(usage := Plus(sp.usage, usage)), events := s.events + events)
  }

  /** The stream of a turn, and what follows. */
  method ReadStream(opts: Options, w: World, s0: State) returns (s: State, next: Next)
    requires Live(opts, s0) && CalledNow(s0)
    ensures TurnGrows(opts, w.turns(|s0.starts|), s0, s, next) && TurnEnds(opts, w, w.turns(|s0.starts|), s, next)
  {
    hide Allows, Requested, Paired, Accepted, Answer, TurnKeepsIDs, Live, Sound, Thrifty, Ended, Cause, Broken, Metered,
      Denied, Observed, Quiet, Closed, TurnEnds, FailsFor, EndsAs, Collect.HearAll, Uses, C.Plain, IDsKept, Collect.EarlyOf, Shown,
      Collect.SafeStarted, Collect.OnlySafe, StreamUses, Unsafe, Ahead, CalledNow, Collect.RanEarly, Salvaged, PartlySalvaged, Plus,
      Told, SaidAll, TurnGrows, Stored, Trails, InStep, Behind;
    var input := w.turns(|s0.starts|);
    var stream := Heeded(input);
    LiveThrifty(opts, s0);
    var got, sp, events, read := Collect.CollectAssistant(opts, w, input.answers, stream, s0.spend);
    CollectedLives(opts, s0, sp, |got.early|, got.usage, events);
    CollectedAhead(opts, s0, sp, |got.early|, Plus(sp.usage, got.usage), events);
    s := Heard(s0, sp, got.usage, events);
    var failure := got.failure;
    if input.closeFails && failure.None? {
      failure := Some(CloseFailed);
    }
    if failure.Some? {
      LiveMetered(opts, s0);
      RanEarlySame(s0.spend, sp, |got.early|);
      if failure.value.BudgetExceeded? {
        SomeSafe(got.uses, opts.safe);
        SafeInStream(stream.events, read, opts);
      }
      CollectCause(opts, w, s0, sp, Plus(sp.usage, got.usage), events, failure.value);
      ghost var heard := s;
      s, next := FailStream(opts, w, got, failure.value, s);
      FailedTurn(opts, w, input, s, next);
      FailedGrows(opts, input, s0, heard, s, next, got.content, events);
    } else {
      assert stream.events[..read] == stream.events;
      Collect.HeardIsTold(stream.events, opts);
      AnswerOf(opts, input);
      ghost var heard := s;
      s, next := Conclude(opts, w, got, s);
      ConcludedGrows(opts, w, input, s0, heard, s, next, events);
    }
  }

  /** The message of a stream keeps what its events told. */
  lemma {:induction false} MessageInStep(ms: seq<Message>, events0: seq<Event>, events: seq<Event>, content: seq<Block>)
    requires Told(events) == SaidAll(content)
    ensures InStep(ms, events0, ms + [AssistantMessage(content)], events0 + events)
  {
    hide Told, InStep, SaidAll;
    ToldConcat(events0, events);
    InStepBy(ms, AssistantMessage(content), events0, events0 + events);
  }

  lemma {:induction false} FailedGrows(
      opts: Options, input: TurnInput, s0: State, heard: State, s: State, next: Next, content: seq<Block>, events: seq<Event>)
    requires heard.log == s0.log && heard.events == s0.events + events && Told(events) == SaidAll(content)
    requires heard.starts == s0.starts && heard.requests == s0.requests
    requires s.log.checkpoint == s0.log.checkpoint && s.starts == s0.starts && s.requests == s0.requests
    requires !next.Continue? && EndsEarly(s.events) && Trails(heard, s, content)
    ensures TurnGrows(opts, input, s0, s, next)
  {
    hide Told, InStep, Behind, SaidAll, Spoken, Leaves;
    var ms := s0.log.transcript;
    if s.log.transcript == ms && heard.events <= s.events {
      BehindBy(ms, s0.events, s.events);
    } else {
      var said := ms + [AssistantMessage(content)];
      MessageInStep(ms, s0.events, events, content);
      InStepOn(ms, s0.events, said, heard.events, s.log.transcript, s.events);
      BehindGrows(said, heard.events, s.log.transcript, s.events);
    }
  }

  lemma {:induction false} BehindGrows(ms0: seq<Message>, events0: seq<Event>, ms: seq<Message>, events: seq<Event>)
    ensures Behind(ms0, events0, ms, events) ==> ms0 <= ms
    ensures InStep(ms0, events0, ms, events) ==> ms0 <= ms
  {
    hide Told, Kept;
  }

  lemma {:induction false} SpokenInStep(opts: Options, input: TurnInput, ms: seq<Message>, events0: seq<Event>, events: seq<Event>)
    requires events == Collect.HearAll(Heeded(input).events, opts).events
    ensures InStep(ms, events0, ms + Spoken(opts, input), events0 + events)
  {
    SpokenIsHeard(opts, input);
    hide Told, Kept, Spoken, Collect.HearAll, StreamUses, UsesOf, Collect.ShowsArtifact, Answer, C.Plain, Collect.Blocks;
    ToldConcat(events0, events);
    assert (ms + Spoken(opts, input))[|ms|..] == Spoken(opts, input);
  }

  lemma {:induction false} ConcludedGrows(
      opts: Options, w: World, input: TurnInput, s0: State, heard: State, s: State, next: Next, events: seq<Event>)
    requires heard.log == s0.log && heard.events == s0.events + events
    requires events == Collect.HearAll(Heeded(input).events, opts).events
    requires heard.starts == s0.starts && heard.requests == s0.requests
    requires s.log.checkpoint == s0.log.checkpoint && s.starts == s0.starts && s.requests == s0.requests
    requires Stored(opts, w, input, heard, s, next)
    ensures TurnGrows(opts, input, s0, s, next)
  {
    hide Told, InStep, Behind, Spoken, Leaves, Affords, Collect.HearAll;
    var ms := s0.log.transcript;
    if s.log.transcript == ms && EndsEarly(s.events) && heard.events <= s.events && !next.Continue? {
      BehindBy(ms, s0.events, s.events);
    } else {
      SpokenInStep(opts, input, ms, s0.events, events);
      InStepOn(ms, s0.events, ms + Spoken(opts, input), heard.events, s.log.transcript, s.events);
    }
  }

  /** One turn: the model call, its stream, and what follows. */
  method Turn(opts: Options, w: World, s0: State) returns (s: State, next: Next)
    requires Live(opts, s0) && |s0.starts| < TurnLimit(opts)
    ensures s0.log.transcript <= s.log.transcript && s.starts == s0.starts + [s0.log]
    ensures var input := w.turns(|s.starts|);
            && TurnEnds(opts, w, input, s, next)
            && Recorded(opts, input, s0.log.transcript, s, next) && Truthful(s0.log.transcript, s0.events, s, next)
            && (next.Continue? && TurnKeepsIDs(opts, input) && Paired(s0.log.transcript) ==> Paired(s.log.transcript))
    ensures OwnCalls(opts, Begun(s0), s) && |s.requests| <= |s0.requests| + 2
    ensures next.Continue? ==> |s0.requests| < |s.requests| && |s0.log.transcript| < |s.log.transcript|
  {
    hide Paired, TurnKeepsIDs, Live, Broken, TurnEnds, CalledNow, OwnCalls, Told, Recorded, Truthful;
    BegunLives(opts, s0);
    var stream;
    s, stream := OpenStream(opts, w, Begun(s0));
    if stream.None? {
      BrokenTurn(opts, w, w.turns(|s0.starts| + 1), s);
      UnheardTurn(opts, w.turns(|s0.starts| + 1), s0, s);
      return s, Stop;
    }
    ghost var called := s;
    s, next := ReadStream(opts, w, s);
    OwnStays(opts, Begun(s0), called, s);
    CalledTurn(opts, w.turns(|s.starts|), s0, called, s, next);
  }

  /** No stream was opened. */
  lemma {:induction false} UnheardTurn(opts: Options, input: TurnInput, s0: State, s: State)
    requires s.log.transcript == s0.log.transcript && Told(s.events) == Told(s0.events) && EndsEarly(s.events)
    ensures Recorded(opts, input, s0.log.transcript, s, Stop) && Truthful(s0.log.transcript, s0.events, s, Stop)
  {
    hide Told, InStep, Behind, Leaves, Spoken;
    InStepSilent(s0.log.transcript, s0.events, s.events);
    InStepIsBehind(s0.log.transcript, s0.events, s.log.transcript, s.events);
  }

  lemma {:induction false} CalledTurn(opts: Options, input: TurnInput, s0: State, called: State, s: State, next: Next)
    requires called.log.transcript == s0.log.transcript && Told(called.events) == Told(s0.events)
    requires Recorded(opts, input, s0.log.transcript, s, next) && Truthful(s0.log.transcript, called.events, s, next)
    ensures Truthful(s0.log.transcript, s0.events, s, next)
    ensures next.Continue? ==> |s0.log.transcript| < |s.log.transcript|
    ensures next.Continue? && TurnKeepsIDs(opts, input) && Paired(s0.log.transcript) ==> Paired(s.log.transcript)
  {
    hide Told, InStep, Behind, Leaves, Spoken, Paired, TurnKeepsIDs;
    InStepSilent(s0.log.transcript, s0.events, called.events);
    InStepOn(s0.log.transcript, s0.events, s0.log.transcript, called.events, s.log.transcript, s.events);
    if next.Continue? {
      LeavesPaired(opts, input, s0.log.transcript, s.log.transcript);
    }
  }

  lemma {:induction false} OwnStays(opts: Options, s0: State, s1: State, s2: State)
    requires OwnCalls(opts, s0, s1) && s2.requests == s1.requests && s2.log.checkpoint == s1.log.checkpoint
    ensures OwnCalls(opts, s0, s2)
  {
    hide Viewable;
  }

  lemma {:induction false} AnswerOf(opts: Options, input: TurnInput)
    ensures Answer(opts, input) == S.Flat(S.Outputs(S.FRESH, Collect.Chunks(Heeded(input).events), opts.u))
  {
  }

  lemma {:induction false} CollectedLives(opts: Options, s: State, sp: Spend, n: nat, usage: Usage, events: seq<Event>)
    requires Live(opts, s) && Thrifty(opts.budget, sp) && Collect.RanEarly(s.spend, sp, n)
    requires Quiet(events) && usage == Observed(events) && Shown(events) == 0
    ensures Live(opts, s.(spend := sp.(usage := Plus(sp.usage, usage)), events := s.events + events))
  {
    hide Allows, Requested, Observed, Shown;
    ObservedConcat(s.events, events);
    ShownConcat(s.events, events);
    MeteredGrows(s, s.(spend := sp.(usage := Plus(sp.usage, usage)), events := s.events + events));
  }

  /** The early tools are run, and their results are still to be shown. */
  lemma {:induction false} CollectedAhead(opts: Options, s: State, sp: Spend, n: nat, usage: Usage, events: seq<Event>)
    requires Live(opts, s) && Collect.RanEarly(s.spend, sp, n) && Shown(events) == 0
    ensures Ahead(s.(spend := sp.(usage := usage), events := s.events + events), n)
  {
    hide Shown;
    ShownConcat(s.events, events);
  }

  lemma {:induction false} ShownConcat(a: seq<Event>, b: seq<Event>)
    ensures Shown(a + b) == Shown(a) + Shown(b)
    decreases |b|
  {
    if b == [] {
      assert a + b == a;
    } else {
      ShownConcat(a, b[..|b| - 1]);
      assert (a + b)[..|a + b| - 1] == a + b[..|b| - 1];
    }
  }

  lemma {:induction false} ObservedConcat(a: seq<Event>, b: seq<Event>)
    ensures Observed(a + b) == Plus(Observed(a), Observed(b))
    decreases |b|
  {
    if b == [] {
      assert a + b == a;
    } else {
      ObservedConcat(a, b[..|b| - 1]);
      assert (a + b)[..|a + b| - 1] == a + b[..|b| - 1];
    }
  }

  // ----- The run -----

  /** How a run is over; finish was called unless the skill tools or a cleanup failed. */
  datatype End = SkillsBroken | Unclean | Finished | Exhausted

  /** At the start of every turn, every tool use was answered right behind its message, in order. */
  ghost predicate PairedTurns(s: State) {
    forall k :: 0 <= k < |s.starts| ==> s.starts[k].transcript <= s.log.transcript && Paired(s.starts[k].transcript)
  }

  /** From each start to the next, the turn left its message and what follows from it. */
  ghost predicate Chronicle(opts: Options, w: World, log0: Log, starts: seq<Log>) {
    && (starts != [] ==> starts[0].transcript == log0.transcript)
    && forall k :: 0 < k < |starts| ==>
         && starts[k - 1].transcript <= starts[k].transcript
         && Leaves(opts, w.turns(k), starts[k].transcript[|starts[k - 1].transcript|..])
  }

  /** The messages are those of the last start and what its turn left. */
  ghost predicate UpToDate(opts: Options, w: World, log0: Log, starts: seq<Log>, ms: seq<Message>) {
    if starts == [] then ms == log0.transcript
    else
      var last := starts[|starts| - 1].transcript;
      last <= ms && Leaves(opts, w.turns(|starts|), ms[|last|..])
  }

  lemma {:induction false} ChronicleGrows(opts: Options, w: World, log0: Log, starts: seq<Log>, log: Log)
    requires Chronicle(opts, w, log0, starts) && UpToDate(opts, w, log0, starts, log.transcript)
    ensures Chronicle(opts, w, log0, starts + [log])
  {
    hide Leaves;
    var all := starts + [log];
    forall k | 0 < k < |all|
      ensures && all[k - 1].transcript <= all[k].transcript
              && Leaves(opts, w.turns(k), all[k].transcript[|all[k - 1].transcript|..])
    {
      if k == |starts| {
        assert all[k - 1] == starts[|starts| - 1] && all[k] == log;
      }
    }
  }

  /** A turn is recorded behind its start. */
  lemma {:induction false} TurnIsRecorded(opts: Options, w: World, log0: Log, s0: State, s: State, next: Next)
    requires Chronicle(opts, w, log0, s0.starts) && UpToDate(opts, w, log0, s0.starts, s0.log.transcript)
    requires s.starts == s0.starts + [s0.log] && Recorded(opts, w.turns(|s.starts|), s0.log.transcript, s, next)
    ensures Chronicle(opts, w, log0, s.starts)
    ensures next.Continue? ==> UpToDate(opts, w, log0, s.starts, s.log.transcript)
    ensures !next.Continue? ==> Answered(opts, w, s)
  {
    hide Leaves, Spoken;
    ChronicleGrows(opts, w, log0, s0.starts, s0.log);
  }

  /** A result, and an error about a final answer, comes with the answer in the transcript, as its last message. */
  ghost predicate Answered(opts: Options, w: World, s: State) {
    !EndsEarly(s.events) ==>
      s.starts != [] && s.log.transcript == s.starts[|s.starts| - 1].transcript + Spoken(opts, w.turns(|s.starts|))
  }

  lemma {:induction false} EarlyIsAnswered(opts: Options, w: World, s: State)
    requires EndsEarly(s.events)
    ensures Answered(opts, w, s)
  {
    hide Spoken;
  }

  lemma {:induction false} TruthGrows(ms: seq<Message>, events: seq<Event>, s0: State, s: State, next: Next)
    requires InStep(ms, events, s0.log.transcript, s0.events) && Truthful(s0.log.transcript, s0.events, s, next)
    ensures Truthful(ms, events, s, next)
  {
    hide InStep, Behind;
    InStepOn(ms, events, s0.log.transcript, s0.events, s.log.transcript, s.events);
  }

  /** Every request is about the session at the start of its turn; by Sound, as the context policies leave it. */
  ghost predicate ViewedRequests(s: State) {
    forall k :: 0 <= k < |s.requests| ==>
      && 1 <= s.requests[k].turn <= |s.starts| && Viewable(s.starts[s.requests[k].turn - 1])
      && s.requests[k].view == ViewOf(s.starts[s.requests[k].turn - 1])
  }

  /** Every request is about the whole transcript at the start of its turn. */
  ghost predicate WholeRequests(s: State) {
    forall k :: 0 <= k < |s.requests| ==>
      1 <= s.requests[k].turn <= |s.starts| && s.requests[k].source == s.starts[s.requests[k].turn - 1].transcript
  }

  lemma {:induction false} TurnIsPaired(s0: State, s: State)
    requires PairedTurns(s0) && Paired(s0.log.transcript)
    requires s0.log.transcript <= s.log.transcript && s.starts == s0.starts + [s0.log]
    ensures PairedTurns(s)
  {
    hide Paired;
  }

  lemma {:induction false} TurnIsViewed(opts: Options, s0: State, s: State)
    requires ViewedRequests(s0) && s.starts == s0.starts + [s0.log] && OwnCalls(opts, Begun(s0), s)
    ensures ViewedRequests(s) && s0.requests <= s.requests
  {
    hide Viewable;
    forall k | 0 <= k < |s.requests|
      ensures && 1 <= s.requests[k].turn <= |s.starts| && Viewable(s.starts[s.requests[k].turn - 1])
              && s.requests[k].view == ViewOf(s.starts[s.requests[k].turn - 1])
    {
      if k < |s0.requests| {
        assert s.requests[k] == s0.requests[k];
      }
    }
  }

  lemma {:induction false} TurnIsWhole(opts: Options, s0: State, s: State)
    requires WholeRequests(s0) && NoPolicies(opts) && s0.log.checkpoint.None?
    requires s.starts == s0.starts + [s0.log] && OwnCalls(opts, Begun(s0), s)
    ensures WholeRequests(s)
  {
    hide Viewable;
    forall k | 0 <= k < |s.requests|
      ensures 1 <= s.requests[k].turn <= |s.starts| && s.requests[k].source == s.starts[s.requests[k].turn - 1].transcript
    {
      if k < |s0.requests| {
        assert s.requests[k] == s0.requests[k];
      }
    }
  }

  ghost predicate RunKeepsIDs(opts: Options, w: World) {
    forall turn: nat :: TurnKeepsIDs(opts, w.turns(turn))
  }

  /** runLoop */
  method RunLoop(opts: Options, w: World, log0: Log) returns (s: State, end: End)
    requires Viewable(log0)
    // safety of the budget, bounds on turns, calls and repairs, and requests as the policies make them
    ensures Sound(opts, s)
    // one terminal event, the last: an error with a cause, or a result, which is the last stream's text,
    // let pass by the hooks and the output contract
    ensures Closed(s.events)
    ensures s.events[|s.events| - 1].Error? ==> Cause(opts, w, s, s.events[|s.events| - 1].why)
    ensures s.events[|s.events| - 1].Result? ==>
              end.Finished? && Accepted(w.turns(|s.starts|), s, Answer(opts, w.turns(|s.starts|)))
    // finish runs once, except on two paths
    ensures |s.finishes| == if end.Finished? || end.Exhausted? then 1 else 0
    ensures s.events[|s.events| - 1].Error? && s.finishes != [] ==> Stops(s.events[|s.events| - 1].why, s.finishes[0])
    ensures end.SkillsBroken? <==> w.skillsFail
    ensures end.Unclean? ==> w.appendFails(|s.log.transcript|)
    // the transcript grows, and is paired at the start of every turn
    ensures log0.transcript <= s.log.transcript
    ensures Paired(log0.transcript) && RunKeepsIDs(opts, w) ==> PairedTurns(s)
    // what each turn adds to the transcript, and that a result is in it
    ensures Chronicle(opts, w, log0, s.starts) && Answered(opts, w, s)
    ensures end.Exhausted? ==>
              && s.events[|s.events| - 1] == Error(TurnsExhausted) && s.finishes == [MaxTurnsStop] && |s.starts| == TurnLimit(opts)
              && UpToDate(opts, w, log0, s.starts, s.log.transcript)
    // the session keeps what the caller is told, in the same order: all of it at a result
    ensures Truthful(log0.transcript, [], s, Stop)
    // every request is about the session at the start of its turn, and every turn but the last makes one
    ensures ViewedRequests(s)
    ensures |s.starts| <= |s.requests| + 1
    ensures NoPolicies(opts) && log0.checkpoint.None? ==> WholeRequests(s)
  {
    hide Allows, Requested, Paired, Accepted, Answer, TurnKeepsIDs, OwnCalls, PairedTurns, WholeRequests, ViewedRequests,
      Cause, Begun, Viewable, RunKeepsIDs, Live, Ended, Unfinished, Sound, Closed, TurnEnds, Broken, Quiet,
      Chronicle, UpToDate, Answered, Recorded, Truthful, Told, InStep, Behind, EndsEarly;
    s := State(log0, [], [], Spend(0, 0, 0, NO_USAGE, 0, [], 0), [], 0, 0, []);
    FirstState(opts, log0);
    if w.skillsFail {
      s, end := s.(events := [Error(SkillsFailed)]), SkillsBroken;
      NoTurns(s);
      NothingHappened(opts, w, log0, s);
      SkillsCause(opts, w, s);
      OnlyError(opts, log0, s);
      return;
    }
    EmitLives(opts, s, SessionStarted);
    s := Emit(s, SessionStarted);
    NoTurns(s);
    NothingHappened(opts, w, log0, s);
    while |s.starts| < TurnLimit(opts)
      invariant Live(opts, s) && |s.starts| <= TurnLimit(opts) && log0.transcript <= s.log.transcript
      invariant Paired(log0.transcript) && RunKeepsIDs(opts, w) ==> Paired(s.log.transcript) && PairedTurns(s)
      invariant Chronicle(opts, w, log0, s.starts) && UpToDate(opts, w, log0, s.starts, s.log.transcript)
      invariant InStep(log0.transcript, [], s.log.transcript, s.events)
      invariant ViewedRequests(s) && |s.starts| <= |s.requests|
      invariant NoPolicies(opts) && log0.checkpoint.None? ==> s.log.checkpoint.None? && WholeRequests(s)
      decreases TurnLimit(opts) - |s.starts|
    {
      ghost var begun := s;
      var next;
      s, next := Turn(opts, w, s);
      KeepsAll(opts, w, |s.starts|);
      TurnIsViewed(opts, begun, s);
      TurnIsRecorded(opts, w, log0, begun, s, next);
      TruthGrows(log0.transcript, [], begun, s, next);
      if Paired(log0.transcript) && RunKeepsIDs(opts, w) {
        TurnIsPaired(begun, s);
      }
      if NoPolicies(opts) && log0.checkpoint.None? {
        TurnIsWhole(opts, begun, s);
        CheckpointStays(opts, begun, s);
      }
      if !next.Continue? {
        EndOfTurn(opts, w, s, next);
        AnyStop(log0, s, next);
        end := if next.Stop? then Finished else Unclean;
        return;
      }
      GoesOn(opts, w, s);
      StillInStep(log0, s);
    }
    TurnsCause(opts, w, s);
    FailedEnds(opts, w, s, TurnsExhausted, MaxTurnsStop);
    ghost var last := s;
    s, end := Failed(s, TurnsExhausted, MaxTurnsStop), Exhausted;
    BrokenTurn(opts, w, w.turns(|s.starts|), s);
    EndOfTurn(opts, w, s, Stop);
    SameTurns(last, s);
    LimitReached(opts, w, log0, last, s);
  }

  lemma {:induction false} NothingHappened(opts: Options, w: World, log0: Log, s: State)
    requires s.starts == [] && s.log == log0 && (s.events == [Error(SkillsFailed)] || s.events == [] + [SessionStarted])
    ensures Chronicle(opts, w, log0, s.starts) && UpToDate(opts, w, log0, s.starts, s.log.transcript)
    ensures InStep(log0.transcript, [], s.log.transcript, s.events)
    ensures s.events == [Error(SkillsFailed)] ==> Answered(opts, w, s) && Truthful(log0.transcript, [], s, Stop)
  {
    hide Leaves, Spoken, Told, InStep, Behind;
    ToldSnoc([], s.events[0]);
    assert [] + [s.events[0]] == s.events && Told([]) + [] == Told([]);
    InStepSilent(log0.transcript, [], s.events);
    InStepIsBehind(log0.transcript, [], log0.transcript, s.events);
  }

  lemma {:induction false} AnyStop(log0: Log, s: State, next: Next)
    requires !next.Continue? && Truthful(log0.transcript, [], s, next)
    ensures Truthful(log0.transcript, [], s, Stop)
  {
    hide InStep, Behind;
  }

  lemma {:induction false} StillInStep(log0: Log, s: State)
    requires Truthful(log0.transcript, [], s, Continue)
    ensures InStep(log0.transcript, [], s.log.transcript, s.events)
  {
    hide InStep, Behind;
  }

  lemma {:induction false} LimitReached(opts: Options, w: World, log0: Log, last: State, s: State)
    requires s == Failed(last, TurnsExhausted, MaxTurnsStop) && InStep(log0.transcript, [], last.log.transcript, last.events)
    requires Live(opts, last)
    ensures Answered(opts, w, s) && Truthful(log0.transcript, [], s, Stop) && s.finishes == [MaxTurnsStop]
    ensures s.events[|s.events| - 1] == Error(TurnsExhausted) && s.log == last.log && s.starts == last.starts
  {
    hide Told, InStep, Behind, Spoken, Sound, Quiet;
    InStepIsBehind(log0.transcript, [], last.log.transcript, last.events);
    BehindSilent(log0.transcript, [], last.log.transcript, last.events, s.events);
  }

  lemma {:induction false} OnlyError(opts: Options, log: Log, s: State)
    requires Viewable(log)
    requires s == State(log, [Error(SkillsFailed)], [], Spend(0, 0, 0, NO_USAGE, 0, [], 0), [], 0, 0, [])
    ensures Sound(opts, s) && Closed(s.events)
  {
    FirstState(opts, log);
    ObservedSnoc([], Error(SkillsFailed));
    ShownSnoc([], Error(SkillsFailed));
    assert [] + [Error(SkillsFailed)] == s.events;
    hide Thrifty, Requested, Observed, Shown, Viewable;
  }

  lemma {:induction false} SkillsCause(opts: Options, w: World, s: State)
    requires w.skillsFail
    ensures Cause(opts, w, s, SkillsFailed)
  {
  }

  lemma {:induction false} TurnsCause(opts: Options, w: World, s: State)
    requires |s.starts| == TurnLimit(opts)
    ensures Cause(opts, w, s, TurnsExhausted)
  {
  }

  lemma {:induction false} KeepsAll(opts: Options, w: World, turn: nat)
    ensures RunKeepsIDs(opts, w) ==> TurnKeepsIDs(opts, w.turns(turn))
  {
    hide TurnKeepsIDs;
  }

  lemma {:induction false} FirstState(opts: Options, log: Log)
    requires Viewable(log)
    ensures var s := State(log, [], [], Spend(0, 0, 0, NO_USAGE, 0, [], 0), [], 0, 0, []);
            Live(opts, s) && PairedTurns(s) && WholeRequests(s) && ViewedRequests(s)
  {
  }

  lemma {:induction false} NoTurns(s: State)
    requires s.starts == [] && s.requests == []
    ensures PairedTurns(s) && WholeRequests(s) && ViewedRequests(s)
  {
  }

  lemma {:induction false} SameTurns(a: State, b: State)
    requires a.starts == b.starts && a.log == b.log && a.requests == b.requests
    ensures PairedTurns(a) ==> PairedTurns(b)
    ensures WholeRequests(a) ==> WholeRequests(b)
    ensures ViewedRequests(a) ==> ViewedRequests(b)
  {
    hide Paired, Viewable;
  }

  lemma {:induction false} CheckpointStays(opts: Options, s0: State, s: State)
    requires NoPolicies(opts) && s0.log.checkpoint.None?
    requires OwnCalls(opts, Begun(s0), s)
    ensures s.log.checkpoint.None?
  {
    hide Viewable;
  }

  lemma {:induction false} GoesOn(opts: Options, w: World, s: State)
    requires TurnEnds(opts, w, w.turns(|s.starts|), s, Continue)
    ensures Live(opts, s)
  {
    hide Live;
  }

  lemma {:induction false} EndOfTurn(opts: Options, w: World, s: State, next: Next)
    requires TurnEnds(opts, w, w.turns(|s.starts|), s, next) && !next.Continue?
    ensures Sound(opts, s) && Closed(s.events) && |s.finishes| == if next.Stop? then 1 else 0
    ensures s.events[|s.events| - 1].Error? ==>
              && Cause(opts, w, s, s.events[|s.events| - 1].why)
              && (s.finishes != [] ==> Stops(s.events[|s.events| - 1].why, s.finishes[0]))
    ensures s.events[|s.events| - 1].Result? ==>
              next.Stop? && Accepted(w.turns(|s.starts|), s, Answer(opts, w.turns(|s.starts|)))
    ensures next.CleanupFailed? ==> w.appendFails(|s.log.transcript|)
  {
    hide Sound, Cause, Answer;
  }

  // ----- What a run promises -----

  /**
    Every run is within the turn, call and repair limits and within its budget; no Stream call starts
    once the tokens reported before it exceed a limit.
   */
  lemma {:induction false} RunsStayInBounds(opts: Options, s: State)
    requires Sound(opts, s)
    ensures |s.starts| <= TurnLimit(opts) && |s.spend.calls| <= 2 * TurnLimit(opts)
    ensures s.finalDenials <= DenialLimit(opts) && s.outputRetries <= RetryLimit(opts)
    ensures Shown(s.events) <= s.spend.toolRuns
    ensures opts.budget.Some? ==>
              var p, calls := opts.budget.value, s.spend.calls;
              && !Over(p.maxModelCalls, |calls|) && !Over(p.maxToolCalls, s.spend.toolRuns)
              && !Over(p.maxToolCalls, Shown(s.events))
              && forall k :: 0 <= k < |calls| ==>
                   && s.requests[k].at <= |s.events|
                   && var observed := Observed(s.events[..s.requests[k].at]);
                   && !Over(p.maxInputTokens, observed.input) && !Over(p.maxOutputTokens, observed.output)
                   && !Over(p.maxTotalTokens, observed.total) && !Over(p.maxDuration, calls[k].elapsed)
                   && !Over(p.maxTurns, calls[k].turns)
  {
    hide Thrifty, Requested, Observed, Shown;
    if opts.budget.Some? {
      ThriftyWithin(opts.budget.value, s.spend);
    }
  }

  /** Every request of every run answers every use with an id exactly when its messages left none unanswered twice. */
  lemma {:induction false} RequestAdjacentIff(opts: Options, s: State, k: nat)
    requires Sound(opts, s) && k < |s.requests|
    ensures R.Adjacent(s.requests[k].sent) <==> R.Repairable(s.requests[k].source)
  {
    hide Thrifty, R.Adjacent, R.Repairable, Q.Prepare, Metered, Derived, Shown;
    Q.RequestAdjacentIff(s.requests[k].source, opts.u);
  }

  /**
    Without context policies, every request of a run that starts paired answers every tool use with an id,
    and is the whole transcript, up to whitespace in texts, exactly when each message's uses have ids, all
    different.
   */
  lemma {:induction false} RequestsAnswerUses(opts: Options, s: State, k: nat)
    requires Sound(opts, s) && PairedTurns(s) && WholeRequests(s) && k < |s.requests|
    ensures var r := s.requests[k];
            && R.Adjacent(r.sent)
            && (r.sent == Q.NormalMessages(r.source, opts.u) <==> Q.Addressed(r.source))
  {
    hide Thrifty, R.Adjacent, Q.Addressed, Q.NormalMessages, Paired, Q.Prepare, Metered, Derived, Shown;
    var r := s.requests[k];
    assert Paired(s.starts[r.turn - 1].transcript);
    Q.PairedIsSentWholeIff(r.source, opts.u);
  }
}
