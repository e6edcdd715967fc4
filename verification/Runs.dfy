/**
  agent.go: the state of one run, and what the world answers it.

  The provider's streams, the hooks, the stores' failures, the tools and the clock are inputs. The
  context is never cancelled, so every event is delivered.
 */
module Runs {
  import opened Wrappers
  import opened Transcript
  import opened Budget
  import E = Executor
  import S = StreamText
  import Q = Requests
  import Sessions

  const DEFAULT_MAX_TURNS := 50
  const DEFAULT_MAX_FINAL_DENIALS := 3
  const DEFAULT_MAX_RETRIES := 1

  // ----- Options -----

  /** What a context policy makes of the messages; compacted when it reports a compaction. */
  datatype Window = Window(messages: seq<Message>, compacted: bool)

  type ContextPolicy = seq<Message> -> Option<Window>

  /** structured when the run has an output contract; safe is CanRunConcurrently. */
  datatype Options = Options(
    maxTurns: int, maxFinalDenials: int, structured: bool, maxRetries: int,
    budget: Option<Policy>, context: Option<ContextPolicy>, contextRetry: Option<ContextPolicy>,
    safe: ToolUse -> bool, norm: string -> string, u: S.Unicode)

  /** withDefaults, for the turn limit */
  function TurnLimit(opts: Options): nat {
    if opts.maxTurns <= 0 then DEFAULT_MAX_TURNS else opts.maxTurns
  }

  /** finalDenialLimit */
  function DenialLimit(opts: Options): nat {
    if opts.maxFinalDenials < 0 then 0
    else if opts.maxFinalDenials == 0 then DEFAULT_MAX_FINAL_DENIALS
    else opts.maxFinalDenials
  }

  /** RetryLimit of the output contract */
  function RetryLimit(opts: Options): nat {
    if !opts.structured || opts.maxRetries < 0 then 0
    else if opts.maxRetries == 0 then DEFAULT_MAX_RETRIES
    else opts.maxRetries
  }

  /** Positive settings are the limits, settings of zero have defaults, and negative ones allow no repair. */
  lemma {:induction false} LimitsAsSet(opts: Options)
    ensures TurnLimit(opts) == if opts.maxTurns > 0 then opts.maxTurns else 50
    ensures opts.maxFinalDenials > 0 ==> DenialLimit(opts) == opts.maxFinalDenials
    ensures opts.maxFinalDenials <= 0 ==> DenialLimit(opts) == if opts.maxFinalDenials == 0 then 3 else 0
    ensures !opts.structured || opts.maxRetries < 0 ==> RetryLimit(opts) == 0
    ensures opts.structured && opts.maxRetries >= 0 ==> RetryLimit(opts) == if opts.maxRetries == 0 then 1 else opts.maxRetries
  {
  }

  predicate NoPolicies(opts: Options) {
    opts.context.None? && opts.contextRetry.None?
  }

  // ----- The world -----

  datatype StreamEvent =
    | TextChunk(text: string)
    | UseStart(use: ToolUse)
    | UseDelta(use: ToolUse, delta: string)
    | UseDone(use: ToolUse)
    | ThinkingChunk(text: string)
    | ArtifactChunk(artifact: Option<string>)
    | UsageChunk(usage: Option<Usage>)

  /** The events of a stream; fails when receiving the next one fails. */
  datatype Stream = Stream(events: seq<StreamEvent>, fails: bool)

  /** What a Stream call gives. */
  datatype Reply = Opened(stream: Stream) | WindowExceeded | Refused

  datatype RunError =
    | SkillsFailed | BudgetExceeded | LoadFailed | PolicyFailed | HookFailed | ToolsFailed | PromptFailed
    | TenantFailed | StreamFailed | ReceiveFailed | CloseFailed | AppendFailed | FinalDenied | OutputInvalid
    | DistillFailed | StopHookFailed | TurnsExhausted

  /** What the before-final hooks say; an empty reason lets the answer pass. */
  datatype Gate = GateFailed | Ruled(denyReason: string)

  /** The answers of one turn; appliedHookFails, saveFails and skillNote are for the call and for its retry. */
  datatype TurnInput = TurnInput(
    viewFails: bool, toolsFail: bool, promptFails: bool, tenantFails: bool, tenantNote: bool,
    appliedHookFails: bool, saveFails: bool, skillNote: bool, first: Reply,
    retryFails: bool, retryHookFails: bool, retrySaveFails: bool, retrySkillNote: bool, second: Reply,
    closeFails: bool, answers: nat -> E.Answers, ready: nat -> bool, notes: nat -> nat,
    gate: Gate, invalid: Option<string>, distillFails: bool, candidates: bool, handlerFails: bool, stopHookFails: bool)

  /** elapsed is the time at each budget check; appendFails(n) when the store refuses message n. */
  datatype World = World(skillsFail: bool, elapsed: nat -> int, appendFails: nat -> bool, turns: nat -> TurnInput)

  /** The stream a turn with these answers reads. */
  function Heeded(input: TurnInput): Stream {
    if input.first.Opened? then input.first.stream
    else if input.second.Opened? then input.second.stream
    else Stream([], false)
  }

  function Normalized(use: ToolUse, opts: Options): ToolUse {
    use.(input := opts.norm(use.input))
  }

  /** The tool uses of a stream, in order. */
  function StreamUses(stream: seq<StreamEvent>, opts: Options): seq<ToolUse> {
    if stream == [] then []
    else
      var last := stream[|stream| - 1];
      StreamUses(stream[..|stream| - 1], opts) + (if last.UseDone? then [Normalized(last.use, opts)] else [])
  }

  /** How many of the uses may not run beside others. */
  function Unsafe(uses: seq<ToolUse>, safe: ToolUse -> bool): nat {
    if uses == [] then 0
    else Unsafe(uses[..|uses| - 1], safe) + (if safe(uses[|uses| - 1]) then 0 else 1)
  }

  // ----- The run -----

  datatype Event =
    | SessionStarted | ContextApplied | ContextCompacted | TenantDenied | ModelRequest | SkillDiscovery
    | AssistantText(text: string)
    | ToolUseStart(use: ToolUse)
    | ToolUseDelta(use: ToolUse, delta: string)
    | ToolUseSeen(use: ToolUse)
    | Thinking(text: string)
    | ArtifactSeen(artifact: string)
    | UsageSeen(usage: Usage)
    | ToolResultSeen(result: ToolResult)
    | ToolNote  // a tenant, skill, workspace, verification, approval or command event about a tool result
    | MemoryCandidates | MemoryCandidateHandlerError
    | Result(text: string, total: Usage)
    | Error(why: RunError)

  datatype StopReason = BudgetStop | ErrorStop | PolicyStop | ResultStop | MaxTurnsStop

  /** budgetTracker, with the snapshot each Stream call was checked under and the number of tool runs. */
  datatype Spend = Spend(
    turns: nat, modelCalls: nat, toolCalls: nat, usage: Usage, checks: nat, calls: seq<Snapshot>, toolRuns: nat)

  /**
    A Stream call: its turn, the number of events before it, whether it is the turn's retry, the view of
    the session at the start of the turn, and the messages, before and after they are prepared.
   */
  datatype Request = Request(
    turn: nat, at: nat, retry: bool, view: seq<Message>, source: seq<Message>, sent: seq<Message>)

  datatype Log = Log(transcript: seq<Message>, checkpoint: Option<Sessions.Checkpoint>)

  /** starts holds the session as it was at the start of each turn. */
  datatype State = State(
    log: Log, events: seq<Event>, finishes: seq<StopReason>, spend: Spend, requests: seq<Request>,
    finalDenials: nat, outputRetries: nat, starts: seq<Log>)

  predicate Calm(e: Event) {
    !e.Result? && !e.Error?
  }

  predicate Quiet(events: seq<Event>) {
    forall i :: 0 <= i < |events| ==> Calm(events[i])
  }

  /** Exactly one terminal event, the last. */
  predicate Closed(events: seq<Event>) {
    && events != [] && !Calm(events[|events| - 1])
    && forall i :: 0 <= i < |events| - 1 ==> Calm(events[i])
  }

  /** The tokens the events have reported. */
  function Observed(events: seq<Event>): Usage {
    if events == [] then NO_USAGE
    else
      var before, e := Observed(events[..|events| - 1]), events[|events| - 1];
      if e.UsageSeen? then Plus(before, e.usage) else before
  }

  lemma {:induction false} ObservedSnoc(events: seq<Event>, e: Event)
    ensures Observed(events + [e]) == if e.UsageSeen? then Plus(Observed(events), e.usage) else Observed(events)
  {
    assert (events + [e])[..|events|] == events;
  }

  /** The number of tool results the events have shown. */
  function Shown(events: seq<Event>): nat {
    if events == [] then 0
    else Shown(events[..|events| - 1]) + (if events[|events| - 1].ToolResultSeen? then 1 else 0)
  }

  lemma {:induction false} ShownSnoc(events: seq<Event>, e: Event)
    ensures Shown(events + [e]) == Shown(events) + (if e.ToolResultSeen? then 1 else 0)
  {
    assert (events + [e])[..|events|] == events;
  }

  // ----- What the caller is told and what the session keeps -----

  datatype Item = Said(block: Block) | Done(result: ToolResult)

  function ToldBy(e: Event): seq<Item> {
    match e
    case AssistantText(text) => [Said(Text(text))]
    case ToolUseSeen(use) => [Said(Use(use))]
    case ArtifactSeen(a) => [Said(Artifact(a))]
    case ToolResultSeen(r) => [Done(r)]
    case _ => []
  }

  /** The blocks and results the events have told of. */
  function Told(events: seq<Event>): seq<Item> {
    if events == [] then [] else Told(events[..|events| - 1]) + ToldBy(events[|events| - 1])
  }

  function SaidAll(content: seq<Block>): seq<Item> {
    if content == [] then [] else SaidAll(content[..|content| - 1]) + [Said(content[|content| - 1])]
  }

  function KeptBy(m: Message): seq<Item> {
    if m.role.Assistant? then SaidAll(m.content)
    else if m.role.Tool? && m.result.Some? then [Done(m.result.value)]
    else []
  }

  /** The blocks and results the messages hold. */
  function Kept(ms: seq<Message>): seq<Item> {
    if ms == [] then [] else Kept(ms[..|ms| - 1]) + KeptBy(ms[|ms| - 1])
  }

  lemma {:induction false} ToldSnoc(events: seq<Event>, e: Event)
    ensures Told(events + [e]) == Told(events) + ToldBy(e)
  {
    hide ToldBy;
    assert (events + [e])[..|events|] == events;
  }

  lemma {:induction false} ToldConcat(a: seq<Event>, b: seq<Event>)
    ensures Told(a + b) == Told(a) + Told(b)
    decreases |b|
  {
    hide ToldBy, Told;
    if b == [] {
      assert a + b == a && Told([]) == [] by { NothingTold(); }
    } else {
      var front, e := b[..|b| - 1], b[|b| - 1];
      ToldConcat(a, front);
      assert front + [e] == b && a + front + [e] == a + b;
      ToldSnoc(front, e);
      ToldSnoc(a + front, e);
      assert Told(a) + (Told(front) + ToldBy(e)) == Told(a) + Told(front) + ToldBy(e);
    }
  }

  lemma {:induction false} NothingTold()
    ensures Told([]) == [] && Kept([]) == []
  {
  }

  lemma {:induction false} KeptSnoc(ms: seq<Message>, m: Message)
    ensures Kept(ms + [m]) == Kept(ms) + KeptBy(m)
  {
    hide KeptBy;
    assert (ms + [m])[..|ms|] == ms;
  }

  lemma {:induction false} KeptConcat(a: seq<Message>, b: seq<Message>)
    ensures Kept(a + b) == Kept(a) + Kept(b)
    decreases |b|
  {
    hide KeptBy, Kept;
    if b == [] {
      assert a + b == a && Kept([]) == [] by { NothingTold(); }
    } else {
      var front, m := b[..|b| - 1], b[|b| - 1];
      KeptConcat(a, front);
      assert front + [m] == b && a + front + [m] == a + b;
      KeptSnoc(front, m);
      KeptSnoc(a + front, m);
      assert Kept(a) + (Kept(front) + KeptBy(m)) == Kept(a) + Kept(front) + KeptBy(m);
    }
  }

  lemma {:induction false} KeptOne(m: Message)
    ensures Kept([m]) == KeptBy(m)
  {
    hide KeptBy;
    assert [m][..0] == [];
  }

  /** Since then the session kept exactly what the caller was told, in the same order. */
  ghost predicate InStep(ms0: seq<Message>, events0: seq<Event>, ms: seq<Message>, events: seq<Event>) {
    ms0 <= ms && Told(events) == Told(events0) + Kept(ms[|ms0|..])
  }

  /** Since then the session kept a beginning of what the caller was told, and nothing else. */
  ghost predicate Behind(ms0: seq<Message>, events0: seq<Event>, ms: seq<Message>, events: seq<Event>) {
    ms0 <= ms && Told(events0) + Kept(ms[|ms0|..]) <= Told(events)
  }

  lemma {:induction false} InStepIsBehind(ms0: seq<Message>, events0: seq<Event>, ms: seq<Message>, events: seq<Event>)
    requires InStep(ms0, events0, ms, events)
    ensures Behind(ms0, events0, ms, events)
  {
    hide Told, Kept;
  }

  lemma {:induction false} InStepOn(
      ms0: seq<Message>, events0: seq<Event>, ms1: seq<Message>, events1: seq<Event>, ms2: seq<Message>, events2: seq<Event>)
    requires InStep(ms0, events0, ms1, events1)
    ensures InStep(ms1, events1, ms2, events2) ==> InStep(ms0, events0, ms2, events2)
    ensures Behind(ms1, events1, ms2, events2) ==> Behind(ms0, events0, ms2, events2)
  {
    hide Told, Kept;
    if ms1 <= ms2 {
      assert ms2[|ms0|..] == ms1[|ms0|..] + ms2[|ms1|..];
      KeptConcat(ms1[|ms0|..], ms2[|ms1|..]);
      assert Told(events0) + (Kept(ms1[|ms0|..]) + Kept(ms2[|ms1|..])) == Told(events0) + Kept(ms1[|ms0|..]) + Kept(ms2[|ms1|..]);
    }
  }

  /** Nothing was told and nothing kept. */
  lemma {:induction false} InStepSilent(ms: seq<Message>, events0: seq<Event>, events: seq<Event>)
    requires Told(events) == Told(events0)
    ensures InStep(ms, events0, ms, events)
  {
    assert ms[|ms|..] == [] && Kept([]) == [];
    hide Told, Kept;
  }

  /** One message was appended, of what was told meanwhile. */
  lemma {:induction false} InStepBy(ms: seq<Message>, m: Message, events0: seq<Event>, events: seq<Event>)
    requires Told(events) == Told(events0) + KeptBy(m)
    ensures InStep(ms, events0, ms + [m], events)
  {
    KeptOne(m);
    hide Told, Kept, KeptBy;
    assert (ms + [m])[|ms|..] == [m];
  }

  lemma {:induction false} BehindSilent(ms0: seq<Message>, events0: seq<Event>, ms: seq<Message>, events: seq<Event>, more: seq<Event>)
    requires Behind(ms0, events0, ms, events) && Told(more) == Told(events)
    ensures Behind(ms0, events0, ms, more)
  {
    hide Told, Kept;
  }

  /** Events were told and nothing was kept. */
  lemma {:induction false} BehindBy(ms: seq<Message>, events0: seq<Event>, events: seq<Event>)
    requires events0 <= events
    ensures Behind(ms, events0, ms, events)
  {
    ToldConcat(events0, events[|events0|..]);
    assert events0 + events[|events0|..] == events;
    assert ms[|ms|..] == [] && Kept([]) == [];
    hide Told, Kept;
    assert Told(events0) + [] == Told(events0);
  }

  /** More events, none of them terminal or about tokens, and results of them tool results. */
  ghost predicate Continues(events0: seq<Event>, events: seq<Event>, results: nat) {
    && events0 <= events && Observed(events) == Observed(events0) && (Quiet(events0) ==> Quiet(events))
    && Shown(events) == Shown(events0) + results
  }

  lemma {:induction false} ContinuesBy(events0: seq<Event>, events: seq<Event>, e: Event, results: nat)
    requires Continues(events0, events, results) && Calm(e) && !e.UsageSeen?
    ensures Continues(events0, events + [e], results + (if e.ToolResultSeen? then 1 else 0))
  {
    hide Observed, Shown;
    ObservedSnoc(events, e);
    ShownSnoc(events, e);
  }

  /** No store saves a checkpoint of more messages than there are, so the view can always be read. */
  predicate Viewable(log: Log) {
    Sessions.MessageView(log.transcript, log.checkpoint).Ok?
  }

  /** The messages of the session as they are read at the start of a turn. */
  function ViewOf(log: Log): seq<Message>
    requires Viewable(log)
  {
    Sessions.MessageView(log.transcript, log.checkpoint).value.messages
  }

  // ----- Budgets -----

  /** Every Stream call was allowed with itself counted, and so were the tool runs. */
  ghost predicate Thrifty(budget: Option<Policy>, sp: Spend) {
    && |sp.calls| == sp.modelCalls
    && (forall k :: 0 <= k < |sp.calls| ==> sp.calls[k].modelCalls == k + 1 && Allows(budget, sp.calls[k]))
    && sp.toolRuns <= sp.toolCalls
    && (budget.Some? ==> !Over(budget.value.maxToolCalls, sp.toolCalls))
  }

  /** The last budget check, with that many more calls and these tokens, exceeded a limit. */
  ghost predicate Denied(budget: Option<Policy>, w: World, sp: Spend, modelCalls: nat, toolCalls: nat, usage: Usage) {
    && sp.checks > 0
    && !Allows(budget, Snapshot(w.elapsed(sp.checks - 1), sp.turns, sp.modelCalls + modelCalls, sp.toolCalls + toolCalls, usage))
  }

  /** checkBudget on the tracker with that many more calls */
  method CheckBudget(budget: Option<Policy>, w: World, sp0: Spend, modelCalls: nat, toolCalls: nat)
      returns (ok: bool, snapshot: Snapshot, sp: Spend)
    ensures sp == sp0.(checks := sp0.checks + 1)
    ensures ok == Allows(budget, snapshot)
    ensures snapshot == Snapshot(w.elapsed(sp0.checks), sp0.turns, sp0.modelCalls + modelCalls, sp0.toolCalls + toolCalls, sp0.usage)
    ensures ok && budget.Some? ==> !Over(budget.value.maxToolCalls, sp0.toolCalls + toolCalls)
    ensures !ok ==> Denied(budget, w, sp, modelCalls, toolCalls, sp.usage)
  {
    snapshot := Snapshot(w.elapsed(sp0.checks), sp0.turns, sp0.modelCalls + modelCalls, sp0.toolCalls + toolCalls, sp0.usage);
    sp := sp0.(checks := sp0.checks + 1);
    ok := Allows(budget, snapshot);
    assert ok && budget.Some? ==> !Exceeds(budget.value, snapshot, Limit.ToolCalls);
  }

  /** What the budget promises of a thrifty run. */
  lemma {:induction false} ThriftyWithin(p: Policy, sp: Spend)
    requires Thrifty(Some(p), sp)
    ensures !Over(p.maxModelCalls, |sp.calls|) && !Over(p.maxToolCalls, sp.toolRuns)
    ensures forall k :: 0 <= k < |sp.calls| ==>
              && !Over(p.maxInputTokens, sp.calls[k].usage.input) && !Over(p.maxOutputTokens, sp.calls[k].usage.output)
              && !Over(p.maxTotalTokens, sp.calls[k].usage.total) && !Over(p.maxDuration, sp.calls[k].elapsed)
              && !Over(p.maxTurns, sp.calls[k].turns)
  {
    hide Check;
    forall k | 0 <= k < |sp.calls|
      ensures forall limit: Limit :: !Exceeds(p, sp.calls[k], limit)
    {
      assert Allows(Some(p), sp.calls[k]);
    }
    forall k | 0 <= k < |sp.calls|
      ensures && !Over(p.maxInputTokens, sp.calls[k].usage.input) && !Over(p.maxOutputTokens, sp.calls[k].usage.output)
              && !Over(p.maxTotalTokens, sp.calls[k].usage.total) && !Over(p.maxDuration, sp.calls[k].elapsed)
              && !Over(p.maxTurns, sp.calls[k].turns)
    {
      var s := sp.calls[k];
      assert !Exceeds(p, s, InputTokens) && !Exceeds(p, s, OutputTokens) && !Exceeds(p, s, TotalTokens);
      assert !Exceeds(p, s, Duration) && !Exceeds(p, s, Turns);
    }
    if |sp.calls| > 0 {
      assert !Exceeds(p, sp.calls[|sp.calls| - 1], ModelCalls);
    }
  }

  // ----- Invariants of a run -----

  /**
    The messages of a request come from the view, by the context policy if there is one; those of a
    retry come from the request before it, by the retry policy.
   */
  ghost predicate Derived(opts: Options, earlier: seq<Request>, r: Request) {
    if !r.retry then
      if opts.context.None? then r.source == r.view
      else
        var window := opts.context.value(Q.Prepare(r.view, opts.u));
        window.Some? && r.source == window.value.messages
    else
      && earlier != [] && opts.contextRetry.Some?
      && var last := earlier[|earlier| - 1];
      var window := opts.contextRetry.value(last.sent);
      !last.retry && last.turn == r.turn && last.view == r.view && window.Some? && r.source == window.value.messages
  }

  ghost predicate Requested(requests: seq<Request>, opts: Options) {
    forall k :: 0 <= k < |requests| ==>
      requests[k].sent == Q.Prepare(requests[k].source, opts.u) && Derived(opts, requests[..k], requests[k])
  }

  lemma {:induction false} RequestedMore(requests: seq<Request>, r: Request, opts: Options)
    requires Requested(requests, opts) && r.sent == Q.Prepare(r.source, opts.u) && Derived(opts, requests, r)
    ensures Requested(requests + [r], opts)
  {
    hide Derived, Q.Prepare;
    var all := requests + [r];
    forall k | 0 <= k < |all|
      ensures all[k].sent == Q.Prepare(all[k].source, opts.u) && Derived(opts, all[..k], all[k])
    {
      assert all[..k] == requests[..k];
      if k == |requests| {
        assert requests[..k] == requests;
      }
    }
  }

  /** Every Stream call was checked with all the tokens reported before it. */
  ghost predicate Metered(s: State) {
    && |s.requests| == |s.spend.calls| && s.spend.usage == Observed(s.events)
    && forall k :: 0 <= k < |s.requests| ==>
         s.requests[k].at <= |s.events| && s.spend.calls[k].usage == Observed(s.events[..s.requests[k].at])
  }

  lemma {:induction false} MeteredGrows(s0: State, s: State)
    requires Metered(s0) && s0.events <= s.events && s.spend.usage == Observed(s.events)
    requires s.requests == s0.requests && s.spend.calls == s0.spend.calls
    ensures Metered(s)
  {
    hide Observed;
    forall k | 0 <= k < |s.requests|
      ensures s.requests[k].at <= |s.events| && s.spend.calls[k].usage == Observed(s.events[..s.requests[k].at])
    {
      assert s.events[..s.requests[k].at] == s0.events[..s.requests[k].at];
    }
  }

  ghost predicate Sound(opts: Options, s: State) {
    && Thrifty(opts.budget, s.spend) && Viewable(s.log) && Metered(s)
    && Shown(s.events) <= s.spend.toolRuns
    && s.finalDenials <= DenialLimit(opts) && s.outputRetries <= RetryLimit(opts)
    && Requested(s.requests, opts)
    && s.spend.turns == |s.starts| <= TurnLimit(opts)
    && |s.spend.calls| <= 2 * |s.starts|
  }

  ghost predicate Live(opts: Options, s: State) {
    Sound(opts, s) && Quiet(s.events) && s.finishes == []
  }

  ghost predicate Ended(opts: Options, s: State) {
    Sound(opts, s) && Closed(s.events) && |s.finishes| == 1
  }

  /**
    The last budget check failed: at the start of the turn or after its stream, for the model call, for
    the batch of the tools that may not run beside others, or, with the tokens reported before the
    stream, for one that may.
   */
  ghost predicate OutOfBudget(opts: Options, w: World, s: State) {
    var uses := StreamUses(Heeded(w.turns(|s.starts|)).events, opts);
    || Denied(opts.budget, w, s.spend, 0, 0, s.spend.usage)
    || Denied(opts.budget, w, s.spend, 1, 0, s.spend.usage)
    || Denied(opts.budget, w, s.spend, 0, Unsafe(uses, opts.safe), s.spend.usage)
    || (&& Unsafe(uses, opts.safe) < |uses| && s.requests != [] && s.requests[|s.requests| - 1].at <= |s.events|
        && Denied(opts.budget, w, s.spend, 0, 1, Observed(s.events[..s.requests[|s.requests| - 1].at])))
  }

  /** The world answered with this error. */
  predicate Says(input: TurnInput, why: RunError) {
    match why
    case LoadFailed => input.viewFails
    case HookFailed => input.appliedHookFails || input.retryHookFails || input.gate.GateFailed?
    case ToolsFailed => input.toolsFail
    case PromptFailed => input.promptFails
    case TenantFailed => input.tenantFails
    case ReceiveFailed => Heeded(input).fails
    case CloseFailed => input.closeFails
    case DistillFailed => input.distillFails
    case StopHookFailed => input.stopHookFails
    case _ => false
  }

  /** The turn's Stream call was refused, and so was its retry if there was one. */
  ghost predicate NoStream(opts: Options, input: TurnInput, requests: seq<Request>) {
    && !input.first.Opened?
    && (input.second.Opened? ==>
          input.first.Refused? || opts.contextRetry.None? || input.retryFails
          || (requests != [] && opts.contextRetry.value(requests[|requests| - 1].sent).None?))
  }

  /** Why a run may end with this error. */
  ghost predicate Cause(opts: Options, w: World, s: State, why: RunError) {
    var input := w.turns(|s.starts|);
    || Says(input, why)
    || (match why
        case SkillsFailed => w.skillsFail
        case BudgetExceeded => OutOfBudget(opts, w, s)
        case PolicyFailed =>
          opts.context.Some? && Viewable(s.log) && opts.context.value(Q.Prepare(ViewOf(s.log), opts.u)).None?
        case StreamFailed => NoStream(opts, input, s.requests)
        case AppendFailed => w.appendFails(|s.log.transcript|)
        case FinalDenied => input.gate.Ruled? && input.gate.denyReason != "" && s.finalDenials == DenialLimit(opts)
        case OutputInvalid => input.invalid.Some? && s.outputRetries == RetryLimit(opts)
        case TurnsExhausted => |s.starts| == TurnLimit(opts)
        case _ => false)
  }

  lemma {:induction false} SaidCause(opts: Options, w: World, s: State, why: RunError)
    requires Says(w.turns(|s.starts|), why)
    ensures Cause(opts, w, s, why)
  {
  }

  /** A budget check for the turn or for its model call that failed just now. */
  lemma {:induction false} BudgetCause(opts: Options, w: World, s: State, modelCalls: nat)
    requires modelCalls <= 1 && Denied(opts.budget, w, s.spend, modelCalls, 0, s.spend.usage)
    ensures Cause(opts, w, s, BudgetExceeded)
  {
    hide Observed, Denied, StreamUses, Unsafe;
  }

  /** The cause of an error lasts while the turn goes on. */
  lemma {:induction false} CauseLasts(opts: Options, w: World, s0: State, s: State, why: RunError)
    requires Cause(opts, w, s0, why) && s0.events <= s.events && s.starts == s0.starts
    requires s.log == s0.log && s.requests == s0.requests
    requires s.finalDenials == s0.finalDenials && s.outputRetries == s0.outputRetries && s.spend == s0.spend
    ensures Cause(opts, w, s, why)
  {
    hide Observed, Q.Prepare, StreamUses, Unsafe, Denied, Says, NoStream, Viewable;
    if why.BudgetExceeded? && s.requests != [] && s.requests[|s.requests| - 1].at <= |s0.events| {
      var at := s.requests[|s.requests| - 1].at;
      assert s.events[..at] == s0.events[..at];
    }
  }

  /** What finish is called with. */
  function StopOf(why: RunError): StopReason {
    match why
    case BudgetExceeded => BudgetStop
    case TenantFailed | FinalDenied => PolicyStop
    case TurnsExhausted => MaxTurnsStop
    case StopHookFailed => ResultStop
    case _ => ErrorStop
  }

  /** A budget check that fails for a tool started early fails its stream. */
  predicate Stops(why: RunError, stop: StopReason) {
    stop == StopOf(why) || (why.BudgetExceeded? && stop == ErrorStop)
  }

  /** The run ended with an error, for a reason, which finish was told. */
  ghost predicate Broken(opts: Options, w: World, s: State) {
    && Ended(opts, s) && s.events[|s.events| - 1].Error? && Cause(opts, w, s, s.events[|s.events| - 1].why)
    && Stops(s.events[|s.events| - 1].why, s.finishes[0])
  }

  /** Errors about a final answer that is in the transcript already. */
  predicate AboutAnswer(why: RunError) {
    why.FinalDenied? || why.OutputInvalid? || why.DistillFailed? || why.StopHookFailed?
  }

  /** The last event is an error, and not about a final answer. */
  predicate EndsEarly(events: seq<Event>) {
    events != [] && events[|events| - 1].Error? && !AboutAnswer(events[|events| - 1].why)
  }

  function Emit(s: State, e: Event): (r: State)
    ensures Quiet(s.events) && Calm(e) ==> Quiet(r.events)
    ensures ToldBy(e) == [] ==> Told(r.events) == Told(s.events)
  {
    ToldSnoc(s.events, e);
    s.(events := s.events + [e])
  }

  /** emitError and then finish */
  function Failed(s: State, why: RunError, stop: StopReason): (r: State)
    ensures Quiet(s.events) ==> Closed(r.events)
    ensures Told(r.events) == Told(s.events) && r.events != [] && r.events[|r.events| - 1] == Error(why)
  {
    ToldSnoc(s.events, Error(why));
    s.(events := s.events + [Error(why)], finishes := s.finishes + [stop])
  }

  lemma {:induction false} FailedSound(opts: Options, s: State, why: RunError, stop: StopReason)
    requires Live(opts, s)
    ensures Ended(opts, Failed(s, why, stop))
  {
    hide Thrifty, Requested, Quiet, Closed, Observed, Shown;
    ObservedSnoc(s.events, Error(why));
    ShownSnoc(s.events, Error(why));
    MeteredGrows(s, Failed(s, why, stop));
  }

  lemma {:induction false} FailedEnds(opts: Options, w: World, s: State, why: RunError, stop: StopReason)
    requires Live(opts, s) && Cause(opts, w, s, why) && Stops(why, stop)
    ensures Broken(opts, w, Failed(s, why, stop))
  {
    assert s.finishes == [];
    hide Live, Ended, Cause, Stops;
    FailedSound(opts, s, why, stop);
    CauseLasts(opts, w, s, Failed(s, why, stop), why);
  }

  lemma {:induction false} EmitLives(opts: Options, s: State, e: Event)
    requires Live(opts, s) && Calm(e) && !e.UsageSeen? && !e.ToolResultSeen?
    ensures Live(opts, Emit(s, e))
  {
    hide Thrifty, Requested, Quiet, Observed, Shown;
    ObservedSnoc(s.events, e);
    ShownSnoc(s.events, e);
    MeteredGrows(s, Emit(s, e));
  }
}
