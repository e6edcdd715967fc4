/** agent.go, collectAssistant: reading one model stream and starting safe tools while it is read. */
module Collect {
  import opened Wrappers
  import opened Transcript
  import opened Budget
  import opened Runs
  import E = Executor
  import S = StreamText
  import C = AssistantContent

  /** What has been made of the events read so far. */
  datatype Heard = Heard(content: seq<Block>, state: S.State, usage: Usage, events: seq<Event>)

  function Hear(h: Heard, e: StreamEvent, opts: Options): Heard {
    match e
    case TextChunk(text) =>
      var out := S.Output(h.state, text, opts.u);
      if out == "" then h.(state := S.Next(h.state, text))
      else h.(state := S.Next(h.state, text), content := h.content + [Text(out)], events := h.events + [AssistantText(out)])
    case UseStart(use) => h.(events := h.events + [ToolUseStart(use)])
    case UseDelta(use, delta) => h.(events := h.events + [ToolUseDelta(use, delta)])
    case UseDone(raw) =>
      var use := Normalized(raw, opts);
      h.(content := h.content + [Use(use)], events := h.events + [ToolUseSeen(use)])
    case ThinkingChunk(text) => if text == "" then h else h.(events := h.events + [Thinking(text)])
    case ArtifactChunk(None) => h
    case ArtifactChunk(Some(a)) => h.(content := h.content + [Artifact(a)], events := h.events + [ArtifactSeen(a)])
    case UsageChunk(None) => h
    case UsageChunk(Some(usage)) => h.(usage := Plus(h.usage, usage), events := h.events + [UsageSeen(usage)])
  }

  function HearAll(stream: seq<StreamEvent>, opts: Options): Heard {
    if stream == [] then Heard([], S.FRESH, NO_USAGE, [])
    else Hear(HearAll(stream[..|stream| - 1], opts), stream[|stream| - 1], opts)
  }

  // ----- What the message holds -----

  function Chunks(stream: seq<StreamEvent>): seq<string> {
    if stream == [] then []
    else
      var last := stream[|stream| - 1];
      Chunks(stream[..|stream| - 1]) + (if last.TextChunk? then [last.text] else [])
  }

  /** The blocks that the events told the caller about. */
  function Blocks(events: seq<Event>): seq<Block> {
    if events == [] then []
    else
      Blocks(events[..|events| - 1]) +
      (match events[|events| - 1]
       case AssistantText(text) => [Text(text)]
       case ToolUseSeen(use) => [Use(use)]
       case ArtifactSeen(a) => [Artifact(a)]
       case _ => [])
  }

  lemma {:induction false} UsesSnoc(content: seq<Block>, b: Block)
    ensures Uses(content + [b]) == Uses(content) + (if b.Use? then [b.use] else [])
  {
    assert (content + [b])[..|content|] == content;
  }

  lemma {:induction false} BlocksSnoc(events: seq<Event>, e: Event)
    ensures Blocks(events + [e]) == Blocks(events) + Blocks([e])
  {
    assert (events + [e])[..|events|] == events;
    assert [e][..0] == [];
  }

  lemma {:induction false} HearStep(h: Heard, e: StreamEvent, opts: Options)
    requires h.content == Blocks(h.events) && Quiet(h.events) && h.usage == Observed(h.events) && Shown(h.events) == 0
    requires Told(h.events) == SaidAll(h.content)
    ensures var h' := Hear(h, e, opts);
            && h'.content == Blocks(h'.events) && Quiet(h'.events) && h'.usage == Observed(h'.events) && Shown(h'.events) == 0
            && Told(h'.events) == SaidAll(h'.content)
            && h'.state == (if e.TextChunk? then S.Next(h.state, e.text) else h.state)
  {
    hide S.Output, S.Next, Blocks, Normalized, Plus, Observed, Shown, Told, SaidAll;
    var h' := Hear(h, e, opts);
    if |h'.events| > |h.events| {
      var last := h'.events[|h.events|];
      assert h'.events == h.events + [last];
      BlocksSnoc(h.events, last);
      ObservedSnoc(h.events, last);
      ShownSnoc(h.events, last);
      ToldSnoc(h.events, last);
      LastBlock(last);
      SaidSnoc(h.content, h'.content);
      assert Told(h.events) + [] == Told(h.events);
    }
  }

  lemma {:induction false} SaidSnoc(a: seq<Block>, b: seq<Block>)
    requires a <= b && |b| <= |a| + 1
    ensures SaidAll(b) == SaidAll(a) + (if b == a then [] else [Said(b[|a|])])
  {
    if b != a {
      assert b[..|b| - 1] == a;
    }
  }

  lemma {:induction false} HearBlock(h: Heard, e: StreamEvent, opts: Options)
    ensures var h' := Hear(h, e, opts);
            && Uses(h'.content) == Uses(h.content) + (if e.UseDone? then [Normalized(e.use, opts)] else [])
            && C.Plain(h'.content) == C.Plain(h.content) + (if e.TextChunk? then S.Output(h.state, e.text, opts.u) else "")
  {
    hide S.Output, S.Next, Uses, C.Plain, Normalized, Plus;
    var h' := Hear(h, e, opts);
    if |h'.content| > |h.content| {
      var b := h'.content[|h.content|];
      assert h'.content == h.content + [b];
      UsesSnoc(h.content, b);
      C.Snoc(h.content, b);
    } else {
      assert C.Plain(h.content) + "" == C.Plain(h.content) && Uses(h.content) + [] == Uses(h.content);
    }
  }

  lemma {:induction false} NothingSaid()
    ensures Told([]) == [] && SaidAll([]) == []
  {
  }

  lemma {:induction false} LastBlock(e: Event)
    ensures Blocks([e]) == match e
                           case AssistantText(text) => [Text(text)]
                           case ToolUseSeen(use) => [Use(use)]
                           case ArtifactSeen(a) => [Artifact(a)]
                           case _ => []
  {
    assert [e][..0] == [];
  }

  /**
    The message holds exactly the blocks its reader was told about: the tool uses of the stream in
    order, and the text chunks as one run of the text normaliser, whatever comes between them.
   */
  lemma {:induction false} HeardIsTold(stream: seq<StreamEvent>, opts: Options)
    ensures var h := HearAll(stream, opts);
            && h.content == Blocks(h.events) && Quiet(h.events) && h.usage == Observed(h.events) && Shown(h.events) == 0
            && Told(h.events) == SaidAll(h.content)
            && Uses(h.content) == StreamUses(stream, opts)
            && h.state == C.StateAfter(S.FRESH, Chunks(stream))
            && C.Plain(h.content) == S.Flat(S.Outputs(S.FRESH, Chunks(stream), opts.u))
    decreases |stream|
  {
    hide S.Output, S.Next, Hear, Normalized, Told, SaidAll;
    if stream == [] {
      assert Told([]) == [] && SaidAll([]) == [] by { NothingSaid(); }
    } else {
      var front, e := stream[..|stream| - 1], stream[|stream| - 1];
      HeardIsTold(front, opts);
      HearStep(HearAll(front, opts), e, opts);
      HearBlock(HearAll(front, opts), e, opts);
      if e.TextChunk? {
        C.OutputsSnoc(S.FRESH, Chunks(front), e.text, opts.u);
        assert (Chunks(front) + [e.text])[..|Chunks(front)|] == Chunks(front);
      } else {
        assert Chunks(stream) == Chunks(front);
        assert C.Plain(HearAll(front, opts).content) + "" == C.Plain(HearAll(front, opts).content);
      }
    }
  }

  /** The events that only pass on what the stream says, other than text. */
  function PassedOn(events: seq<Event>): seq<Event> {
    if events == [] then []
    else
      var last := events[|events| - 1];
      PassedOn(events[..|events| - 1]) + (if last.AssistantText? then [] else [last])
  }

  /** What the stream says, other than text; each item of it gives at most one event. */
  function SaidOf(e: StreamEvent, opts: Options): seq<Event> {
    match e
    case TextChunk(_) => []
    case UseStart(use) => [ToolUseStart(use)]
    case UseDelta(use, delta) => [ToolUseDelta(use, delta)]
    case UseDone(raw) => [ToolUseSeen(Normalized(raw, opts))]
    case ThinkingChunk(text) => if text == "" then [] else [Thinking(text)]
    case ArtifactChunk(artifact) => if artifact.Some? then [ArtifactSeen(artifact.value)] else []
    case UsageChunk(usage) => if usage.Some? then [UsageSeen(usage.value)] else []
  }

  function SaidIn(stream: seq<StreamEvent>, opts: Options): seq<Event> {
    if stream == [] then [] else SaidIn(stream[..|stream| - 1], opts) + SaidOf(stream[|stream| - 1], opts)
  }

  lemma {:induction false} PassedSnoc(events: seq<Event>, e: Event)
    ensures PassedOn(events + [e]) == PassedOn(events) + (if e.AssistantText? then [] else [e])
  {
    assert (events + [e])[..|events|] == events;
  }

  lemma {:induction false} PassedStep(h: Heard, e: StreamEvent, opts: Options)
    ensures PassedOn(Hear(h, e, opts).events) == PassedOn(h.events) + SaidOf(e, opts)
  {
    hide S.Output, S.Next, PassedOn, Normalized, Plus;
    var h' := Hear(h, e, opts);
    assert PassedOn(h.events) + [] == PassedOn(h.events);
    if |h'.events| > |h.events| {
      var last := h'.events[|h.events|];
      assert h'.events == h.events + [last];
      PassedSnoc(h.events, last);
    }
  }

  /** Everything but text is passed on to the caller, in order, once. */
  lemma {:induction false} HeardIsPassedOn(stream: seq<StreamEvent>, opts: Options)
    ensures PassedOn(HearAll(stream, opts).events) == SaidIn(stream, opts)
    decreases |stream|
  {
    hide Hear, SaidOf;
    if stream != [] {
      HeardIsPassedOn(stream[..|stream| - 1], opts);
      PassedStep(HearAll(stream[..|stream| - 1], opts), stream[|stream| - 1], opts);
    }
  }

  predicate ShowsArtifact(stream: seq<StreamEvent>) {
    exists i :: 0 <= i < |stream| && stream[i].ArtifactChunk? && stream[i].artifact.Some?
  }

  lemma {:induction false} ShowsSnoc(stream: seq<StreamEvent>, e: StreamEvent)
    ensures ShowsArtifact(stream + [e]) <==> ShowsArtifact(stream) || (e.ArtifactChunk? && e.artifact.Some?)
  {
    var all := stream + [e];
    assert forall i :: 0 <= i < |stream| ==> all[i] == stream[i];
    assert all[|stream|] == e;
  }

  lemma {:induction false} NothingKeptStep(h: Heard, e: StreamEvent, opts: Options)
    ensures Hear(h, e, opts).content == [] <==>
            && h.content == [] && !e.UseDone? && !(e.ArtifactChunk? && e.artifact.Some?)
            && (e.TextChunk? ==> S.Output(h.state, e.text, opts.u) == "")
  {
    hide S.Output, S.Next, Normalized;
  }

  /** A stream leaves no message exactly when it has no tool use, no artifact and no text. */
  lemma {:induction false} NothingKeptIff(stream: seq<StreamEvent>, opts: Options)
    ensures HearAll(stream, opts).content == [] <==>
            StreamUses(stream, opts) == [] && !ShowsArtifact(stream) && C.Plain(HearAll(stream, opts).content) == ""
    decreases |stream|
  {
    hide Hear, C.Plain, ShowsArtifact, StreamUses, S.Output;
    if stream == [] {
      NoPlain();
      EmptyStream(opts);
    } else {
      var front, e := stream[..|stream| - 1], stream[|stream| - 1];
      assert front + [e] == stream;
      NothingKeptIff(front, opts);
      NothingKeptStep(HearAll(front, opts), e, opts);
      ShowsSnoc(front, e);
      HearBlock(HearAll(front, opts), e, opts);
      assert stream[..|stream|] == stream;
      ReadsOn(stream, |stream| - 1, opts);
    }
  }

  lemma {:induction false} NoPlain()
    ensures C.Plain([]) == ""
  {
  }

  lemma {:induction false} EmptyStream(opts: Options)
    ensures StreamUses([], opts) == [] && !ShowsArtifact([])
  {
  }

  /** The text kept of a stream is the text of its chunks up to whitespace, no longer and trimmed. */
  lemma {:induction false} HeardText(stream: seq<StreamEvent>, opts: Options)
    ensures var text := C.Plain(HearAll(stream, opts).content);
            && S.NonSpace(text) == S.NonSpace(S.Flat(Chunks(stream)))
            && |text| <= |S.Flat(Chunks(stream))| && S.Trimmed(text)
  {
    HeardIsTold(stream, opts);
    S.StreamTouchesOnlyWhitespace(Chunks(stream), opts.u);
  }

  // ----- The loop -----

  datatype Collected = Collected(
    content: seq<Block>, uses: seq<ToolUse>, early: map<nat, ToolResult>, usage: Usage, failure: Option<RunError>)

  /** Early results are those of running the use itself. */
  ghost predicate EarlyOf(early: map<nat, ToolResult>, uses: seq<ToolUse>, answers: nat -> E.Answers) {
    forall i :: i in early ==> i < |uses| && E.Reported(uses[i], answers(i), early[i])
  }

  ghost predicate SafeStarted(early: map<nat, ToolResult>, uses: seq<ToolUse>, safe: ToolUse -> bool) {
    forall i :: 0 <= i < |uses| && safe(uses[i]) ==> i in early
  }

  /** Only tools that may run beside others were started. */
  ghost predicate OnlySafe(early: map<nat, ToolResult>, uses: seq<ToolUse>, safe: ToolUse -> bool) {
    forall i :: i in early ==> i < |uses| && safe(uses[i])
  }

  /** Only tool calls and budget checks were added. */
  ghost predicate RanEarly(sp0: Spend, sp: Spend, n: nat) {
    sp == sp0.(toolCalls := sp0.toolCalls + n, toolRuns := sp0.toolRuns + n, checks := sp.checks)
  }

  lemma {:induction false} EarlyGrows(early: map<nat, ToolResult>, uses: seq<ToolUse>, answers: nat -> E.Answers, safe: ToolUse -> bool)
    requires uses != [] && EarlyOf(early, uses[..|uses| - 1], answers)
    ensures EarlyOf(early, uses, answers)
    ensures SafeStarted(early, uses[..|uses| - 1], safe) && !safe(uses[|uses| - 1]) ==> SafeStarted(early, uses, safe)
    ensures OnlySafe(early, uses[..|uses| - 1], safe) ==> OnlySafe(early, uses, safe)
  {
    hide E.Reported;
  }

  lemma {:induction false} EarlyStarts(
      early0: map<nat, ToolResult>, uses: seq<ToolUse>, r: ToolResult, answers: nat -> E.Answers, safe: ToolUse -> bool)
    requires uses != [] && EarlyOf(early0, uses[..|uses| - 1], answers)
    requires E.Reported(uses[|uses| - 1], answers(|uses| - 1), r)
    ensures var early := early0[|uses| - 1 := r];
            && EarlyOf(early, uses, answers) && |early| == |early0| + 1
            && (SafeStarted(early0, uses[..|uses| - 1], safe) ==> SafeStarted(early, uses, safe))
            && (OnlySafe(early0, uses[..|uses| - 1], safe) && safe(uses[|uses| - 1]) ==> OnlySafe(early, uses, safe))
  {
    hide E.Reported;
    assert |uses| - 1 !in early0;
  }

  /** startEarlyTool for the last use */
  method StartEarlyTool(opts: Options, w: World, answers: nat -> E.Answers, uses: seq<ToolUse>, early0: map<nat, ToolResult>, sp0: Spend)
      returns (ok: bool, early: map<nat, ToolResult>, sp: Spend)
    requires Thrifty(opts.budget, sp0) && uses != [] && EarlyOf(early0, uses[..|uses| - 1], answers)
    ensures Thrifty(opts.budget, sp) && EarlyOf(early, uses, answers)
    ensures |early| >= |early0| && RanEarly(sp0, sp, |early| - |early0|)
    ensures ok && SafeStarted(early0, uses[..|uses| - 1], opts.safe) ==> SafeStarted(early, uses, opts.safe)
    ensures OnlySafe(early0, uses[..|uses| - 1], opts.safe) ==> OnlySafe(early, uses, opts.safe)
    ensures !ok ==> opts.safe(uses[|uses| - 1]) && Denied(opts.budget, w, sp, 0, 1, sp.usage)
  {
    hide E.Reported, Allows, EarlyOf, SafeStarted, OnlySafe, Denied;
    EarlyGrows(early0, uses, answers, opts.safe);
    var index := |uses| - 1;
    ok, early, sp := true, early0, sp0;
    if !opts.safe(uses[index]) {
      return;
    }
    var snapshot;
    ok, snapshot, sp := CheckBudget(opts.budget, w, sp0, 0, 1);
    if !ok {
      return;
    }
    sp := sp.(toolCalls := sp.toolCalls + 1, toolRuns := sp.toolRuns + 1);
    var results := E.Run(uses, index, index + 1, answers, opts.safe);
    assert E.Reported(uses[index + 0], answers(index + 0), results[0]);
    EarlyStarts(early0, uses, results[0], answers, opts.safe);
    early := early0[index := results[0]];
  }

  lemma {:induction false} StartsEmpty(opts: Options, answers: nat -> E.Answers, sp: Spend)
    ensures HearAll([], opts) == Heard([], S.FRESH, NO_USAGE, []) && StreamUses([], opts) == []
    ensures EarlyOf(map[], [], answers) && SafeStarted(map[], [], opts.safe) && OnlySafe(map[], [], opts.safe) && RanEarly(sp, sp, 0)
  {
  }

  lemma {:induction false} ReadsOn(stream: seq<StreamEvent>, read: nat, opts: Options)
    requires read < |stream|
    ensures HearAll(stream[..read + 1], opts) == Hear(HearAll(stream[..read], opts), stream[read], opts)
    ensures StreamUses(stream[..read + 1], opts) ==
            StreamUses(stream[..read], opts) + (if stream[read].UseDone? then [Normalized(stream[read].use, opts)] else [])
  {
    hide Hear;
    assert stream[..read + 1][..read] == stream[..read];
  }

  lemma {:induction false} RanMore(sp0: Spend, sp1: Spend, sp2: Spend, n: nat, m: nat)
    requires RanEarly(sp0, sp1, n) && n <= m && RanEarly(sp1, sp2, m - n)
    ensures RanEarly(sp0, sp2, m)
  {
  }

  /** The switch on one stream event, but for the tool start. */
  method Listen(text: S.Normalizer, event: StreamEvent, content0: seq<Block>, usage0: Usage, events0: seq<Event>, opts: Options)
      returns (content: seq<Block>, usage: Usage, events: seq<Event>)
    modifies text
    ensures Heard(content, text.Value(), usage, events) == Hear(Heard(content0, old(text.Value()), usage0, events0), event, opts)
  {
    hide S.Output, S.Next, Plus;
    content, usage, events := content0, usage0, events0;
    match event {
      case TextChunk(chunk) =>
        var out := text.Push(chunk, opts.u);
        if out != "" {
          content, events := content + [Text(out)], events + [AssistantText(out)];
        }
      case UseStart(use) =>
        events := events + [ToolUseStart(use)];
      case UseDelta(use, delta) =>
        events := events + [ToolUseDelta(use, delta)];
      case UseDone(raw) =>
        var use := Normalized(raw, opts);
        content, events := content + [Use(use)], events + [ToolUseSeen(use)];
      case ThinkingChunk(chunk) =>
        if chunk != "" {
          events := events + [Thinking(chunk)];
        }
      case ArtifactChunk(artifact) =>
        if artifact.Some? {
          content, events := content + [Artifact(artifact.value)], events + [ArtifactSeen(artifact.value)];
        }
      case UsageChunk(reported) =>
        if reported.Some? {
          usage, events := Plus(usage, reported.value), events + [UsageSeen(reported.value)];
        }
    }
  }

  /** collectAssistant; read is the number of stream events read */
  method CollectAssistant(opts: Options, w: World, answers: nat -> E.Answers, stream: Stream, sp0: Spend)
      returns (got: Collected, sp: Spend, events: seq<Event>, read: nat)
    requires Thrifty(opts.budget, sp0)
    ensures read <= |stream.events|
    ensures var h := HearAll(stream.events[..read], opts);
            got.content == h.content && got.usage == h.usage && events == h.events
    ensures got.uses == StreamUses(stream.events[..read], opts) == Uses(got.content)
    ensures Quiet(events) && got.usage == Observed(events) && Shown(events) == 0 && Told(events) == SaidAll(got.content)
    ensures EarlyOf(got.early, got.uses, answers)
    ensures Thrifty(opts.budget, sp) && RanEarly(sp0, sp, |got.early|)
    ensures read < |stream.events| ==> got.failure == Some(BudgetExceeded)
    ensures got.failure.None? ==> read == |stream.events| && !stream.fails
    ensures got.failure.None? ==> SafeStarted(got.early, got.uses, opts.safe)
    ensures OnlySafe(got.early, got.uses, opts.safe)
    ensures got.failure == (if got.failure == Some(BudgetExceeded) then Some(BudgetExceeded)
                            else if stream.fails then Some(ReceiveFailed) else None)
    ensures got.failure == Some(BudgetExceeded) ==>
              && Denied(opts.budget, w, sp, 0, 1, sp.usage)
              && |got.uses| > 0 && opts.safe(got.uses[|got.uses| - 1])
  {
    hide Told, SaidAll, S.Output, S.Next, Thrifty, HearAll, StreamUses, EarlyOf, RanEarly, Uses, Quiet, Hear, Normalized, SafeStarted, OnlySafe, Denied, Observed, Shown;
    StartsEmpty(opts, answers, sp0);
    var content, usage, uses, early := [], NO_USAGE, [], map[];
    events, sp, read := [], sp0, 0;
    var text := new S.Normalizer();
    while read < |stream.events|
      invariant fresh(text) && read <= |stream.events|
      invariant Heard(content, text.Value(), usage, events) == HearAll(stream.events[..read], opts)
      invariant uses == StreamUses(stream.events[..read], opts)
      invariant EarlyOf(early, uses, answers)
      invariant Thrifty(opts.budget, sp) && RanEarly(sp0, sp, |early|)
      invariant SafeStarted(early, uses, opts.safe) && OnlySafe(early, uses, opts.safe)
    {
      var event := stream.events[read];
      ReadsOn(stream.events, read, opts);
      read := read + 1;
      content, usage, events := Listen(text, event, content, usage, events, opts);
      if event.UseDone? {
        uses := uses + [Normalized(event.use, opts)];
        assert uses[..|uses| - 1] == StreamUses(stream.events[..read - 1], opts);
        var ok, more, spent := StartEarlyTool(opts, w, answers, uses, early, sp);
        RanMore(sp0, sp, spent, |early|, |more|);
        early, sp := more, spent;
        if !ok {
          HeardIsTold(stream.events[..read], opts);
          return Collected(content, uses, early, usage, Some(BudgetExceeded)), sp, events, read;
        }
      }
    }
    HeardIsTold(stream.events[..read], opts);
    got := Collected(content, uses, early, usage, if stream.fails then Some(ReceiveFailed) else None);
  }
}
