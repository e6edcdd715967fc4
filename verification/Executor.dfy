/**
  tool/executor.go: splitting tool uses into batches, running a batch, and the gates one tool use passes.
  The context is never cancelled. safe is CanRunConcurrently; limit is MaxConcurrency, or ten if that is
  not positive.
 */
module Executor {
  import opened Wrappers
  import opened Transcript

  // ----- One tool use -----

  /** What the registry, the hooks, the checkers and the tool itself answer for one use. */
  datatype Answers = Answers(
    known: bool,
    normalized: Result<ToolUse, string>,  // the use itself when the tool has no normaliser
    inputError: Option<string>,
    tenantError: Option<string>,
    hookError: Option<string>,
    hookDenial: string,
    permissionDenial: Option<string>,
    outcome: Result<ToolResult, string>)

  /** Input normalisers keep the id of the use. */
  predicate KeepsID(use: ToolUse, a: Answers) {
    a.normalized.Ok? ==> a.normalized.value.id == use.id
  }

  predicate AllGatesOpen(a: Answers) {
    && a.known && a.normalized.Ok? && a.inputError.None? && a.tenantError.None?
    && a.hookError.None? && a.hookDenial == "" && a.permissionDenial.None?
  }

  function ErrorResult(use: ToolUse, message: string): ToolResult {
    ToolResult(use.id, use.name, message, true, NO_MARKS)
  }

  /** The use as its tool sees it. */
  function Seen(use: ToolUse, a: Answers): ToolUse {
    if a.known && a.normalized.Ok? then a.normalized.value else use
  }

  predicate EndsWith(s: string, end: string) {
    |end| <= |s| && s[|s| - |end|..] == end
  }

  /** What the first closed gate says. */
  function Refusal(use: ToolUse, a: Answers): string
    requires !AllGatesOpen(a)
  {
    if !a.known then use.name
    else if a.normalized.Err? then a.normalized.error
    else if a.inputError.Some? then a.inputError.value
    else if a.tenantError.Some? then a.tenantError.value
    else if a.hookError.Some? then a.hookError.value
    else if a.hookDenial != "" then a.hookDenial
    else if a.permissionDenial.value == "" then "permission denied"
    else a.permissionDenial.value
  }

  /**
    What the result says, for answers a: the tool's own result behind open gates, the error of the tool
    or the refusal of the first closed gate otherwise; always under the id and name its tool saw.
   */
  predicate Reported(use: ToolUse, a: Answers, r: ToolResult) {
    && (KeepsID(use, a) ==> r.toolUseID == use.id)
    && r.toolUseID == Seen(use, a).id && r.name == Seen(use, a).name
    && (if AllGatesOpen(a) && a.outcome.Ok?
        then r.content == a.outcome.value.content && r.isError == a.outcome.value.isError && r.marks == a.outcome.value.marks
        else r.isError && r.marks == NO_MARKS)
    && (AllGatesOpen(a) && a.outcome.Err? ==> r.content == a.outcome.error)
    && (!AllGatesOpen(a) ==> EndsWith(r.content, Refusal(use, a)))
  }

  /** runOne; executed tells whether the tool was called */
  method RunOne(use0: ToolUse, a: Answers) returns (r: ToolResult, executed: bool)
    ensures executed <==> AllGatesOpen(a)
    ensures Reported(use0, a, r)
  {
    var use := use0;
    if !a.known {
      return ErrorResult(use, "no such tool: " + use.name), false;
    }
    if a.normalized.Err? {
      return ErrorResult(use, "normalize tool input: " + a.normalized.error), false;
    }
    use := a.normalized.value;
    if a.inputError.Some? {
      return ErrorResult(use, a.inputError.value), false;
    }
    if a.tenantError.Some? {
      return ErrorResult(use, "tenant validation failed: " + a.tenantError.value), false;
    }
    if a.hookError.Some? {
      return ErrorResult(use, "before tool hook failed: " + a.hookError.value), false;
    }
    if a.hookDenial != "" {
      return ErrorResult(use, a.hookDenial), false;
    }
    if a.permissionDenial.Some? {
      var reason := if a.permissionDenial.value == "" then "permission denied" else a.permissionDenial.value;
      return ErrorResult(use, reason), false;
    }
    if a.outcome.Err? {
      return ErrorResult(use, a.outcome.error), true;
    }
    return a.outcome.value.(toolUseID := use.id, name := use.name), true;
  }

  // ----- Batches -----

  datatype Batch = Batch(concurrent: bool, uses: seq<ToolUse>)

  function Flatten(batches: seq<Batch>): seq<ToolUse> {
    if batches == [] then [] else Flatten(batches[..|batches| - 1]) + batches[|batches| - 1].uses
  }

  /** Concurrent batches hold safe uses only; any other batch is one use that is not safe. */
  ghost predicate WellBatched(batches: seq<Batch>, safe: ToolUse -> bool) {
    forall b :: 0 <= b < |batches| ==>
      && batches[b].uses != []
      && (if batches[b].concurrent
          then forall i :: 0 <= i < |batches[b].uses| ==> safe(batches[b].uses[i])
          else |batches[b].uses| == 1 && !safe(batches[b].uses[0]))
  }

  ghost predicate Maximal(batches: seq<Batch>) {
    forall b :: 0 <= b && b + 1 < |batches| ==> !(batches[b].concurrent && batches[b + 1].concurrent)
  }

  /** partition: maximal runs of safe uses, and every other use on its own */
  method Partition(uses: seq<ToolUse>, safe: ToolUse -> bool) returns (batches: seq<Batch>)
    ensures Flatten(batches) == uses
    ensures WellBatched(batches, safe) && Maximal(batches)
  {
    hide Flatten, WellBatched, Maximal;
    batches := [];
    assert Flatten([]) == [] && WellBatched([], safe) && Maximal([]) by { NoBatches(safe); }
    for i := 0 to |uses|
      invariant Flatten(batches) == uses[..i]
      invariant WellBatched(batches, safe) && Maximal(batches)
    {
      var use, concurrent := uses[i], safe(uses[i]);
      assert uses[..i + 1] == uses[..i] + [use];
      if concurrent && |batches| > 0 && batches[|batches| - 1].concurrent {
        var n := |batches| - 1;
        JoinsLast(batches, use, safe);
        batches := batches[n := batches[n].(uses := batches[n].uses + [use])];
        continue;
      }
      OpensBatch(batches, use, safe);
      batches := batches + [Batch(concurrent, [use])];
    }
    assert uses[..|uses|] == uses;
  }

  lemma {:induction false} NoBatches(safe: ToolUse -> bool)
    ensures Flatten([]) == [] && WellBatched([], safe) && Maximal([])
  {
  }

  lemma {:induction false} OpensBatch(batches: seq<Batch>, use: ToolUse, safe: ToolUse -> bool)
    requires WellBatched(batches, safe) && Maximal(batches)
    requires safe(use) && |batches| > 0 ==> !batches[|batches| - 1].concurrent
    ensures var after := batches + [Batch(safe(use), [use])];
            Flatten(after) == Flatten(batches) + [use] && WellBatched(after, safe) && Maximal(after)
  {
    FlattenSnoc(batches, Batch(safe(use), [use]));
  }

  lemma {:induction false} JoinsLast(batches: seq<Batch>, use: ToolUse, safe: ToolUse -> bool)
    requires WellBatched(batches, safe) && Maximal(batches)
    requires safe(use) && |batches| > 0 && batches[|batches| - 1].concurrent
    ensures var n := |batches| - 1;
            var after := batches[n := batches[n].(uses := batches[n].uses + [use])];
            Flatten(after) == Flatten(batches) + [use] && WellBatched(after, safe) && Maximal(after)
  {
    hide Flatten;
    var n := |batches| - 1;
    var last := batches[n];
    var longer := last.(uses := last.uses + [use]);
    FlattenSnoc(batches[..n], last);
    FlattenSnoc(batches[..n], longer);
    assert batches[..n] + [last] == batches && batches[..n] + [longer] == batches[n := longer];
    assert Flatten(batches[..n]) + (last.uses + [use]) == (Flatten(batches[..n]) + last.uses) + [use];
    assert forall i :: 0 <= i < |longer.uses| ==> safe(longer.uses[i]);
  }

  lemma {:induction false} FlattenSnoc(batches: seq<Batch>, b: Batch)
    ensures Flatten(batches + [b]) == Flatten(batches) + b.uses
  {
    assert (batches + [b])[..|batches|] == batches;
  }

  // ----- Schedules -----

  /** The index of the first use of batch b among all uses. */
  function Offset(batches: seq<Batch>, b: nat): nat
    requires b <= |batches|
  {
    if b == 0 then 0 else Offset(batches, b - 1) + |batches[b - 1].uses|
  }

  /** batch is the batch being worked on; running and done hold indices of uses. */
  datatype State = State(batch: nat, running: set<nat>, done: map<nat, ToolResult>, sent: seq<ToolResult>)

  const IDLE := State(0, {}, map[], [])

  datatype Step = Start(i: nat) | Finish(i: nat, result: ToolResult) | Send | NextBatch

  predicate InBatch(batches: seq<Batch>, b: nat, i: nat)
    requires b < |batches|
  {
    Offset(batches, b) <= i < Offset(batches, b) + |batches[b].uses|
  }

  predicate BatchDone(batches: seq<Batch>, s: State)
    requires s.batch < |batches|
  {
    forall i :: Offset(batches, s.batch) <= i < Offset(batches, s.batch) + |batches[s.batch].uses| ==> i in s.done
  }

  /** A tool of a concurrent batch starts when the semaphore has room; the results go out when the whole batch is done. */
  predicate Enabled(batches: seq<Batch>, limit: nat, s: State, step: Step) {
    && s.batch < |batches|
    && match step
       case Start(i) =>
         && InBatch(batches, s.batch, i) && i !in s.running && i !in s.done
         && (batches[s.batch].concurrent ==> |s.running| < limit)
       case Finish(i, _) => i in s.running
       case Send =>
         BatchDone(batches, s) && |s.sent| < Offset(batches, s.batch) + |batches[s.batch].uses| && |s.sent| in s.done
       case NextBatch => |s.sent| == Offset(batches, s.batch) + |batches[s.batch].uses|
  }

  function Do(s: State, step: Step): State
    requires step.Send? ==> |s.sent| in s.done
  {
    match step
    case Start(i) => s.(running := s.running + {i})
    case Finish(i, result) => s.(running := s.running - {i}, done := s.done[i := result])
    case Send => s.(sent := s.sent + [s.done[|s.sent|]])
    case NextBatch => s.(batch := s.batch + 1)
  }

  /** Every finished tool reports what RunOne gives for its use and the answers to it. */
  predicate Reports(uses: seq<ToolUse>, answers: nat -> Answers, step: Step) {
    step.Finish? ==> step.i < |uses| && Reported(uses[step.i], answers(step.i), step.result)
  }

  predicate CanRun(batches: seq<Batch>, limit: nat, s: State, steps: seq<Step>, answers: nat -> Answers)
    decreases |steps|
  {
    steps == [] ||
    (&& Enabled(batches, limit, s, steps[0]) && Reports(Flatten(batches), answers, steps[0])
     && CanRun(batches, limit, Do(s, steps[0]), steps[1..], answers))
  }

  function After(batches: seq<Batch>, limit: nat, s: State, steps: seq<Step>, answers: nat -> Answers): State
    requires CanRun(batches, limit, s, steps, answers)
    decreases |steps|
  {
    if steps == [] then s else After(batches, limit, Do(s, steps[0]), steps[1..], answers)
  }

  // ----- What every schedule keeps -----

  ghost predicate Inv(batches: seq<Batch>, limit: nat, s: State, answers: nat -> Answers) {
    && s.batch <= |batches|
    && (s.batch == |batches| ==> s.running == {} && |s.sent| == Offset(batches, s.batch))
    && (s.batch < |batches| ==>
          && Offset(batches, s.batch) <= |s.sent| <= Offset(batches, s.batch) + |batches[s.batch].uses|
          && (forall i :: i in s.running ==> InBatch(batches, s.batch, i) && i !in s.done)
          && (|s.sent| > Offset(batches, s.batch) ==> BatchDone(batches, s)))
    && |s.running| <= limit
    && (forall i :: 0 <= i < |s.sent| ==> i in s.done && s.sent[i] == s.done[i])
    && (forall i :: i in s.done ==> i < |Flatten(batches)| && Reported(Flatten(batches)[i], answers(i), s.done[i]))
  }

  lemma {:induction false} OffsetIsLength(batches: seq<Batch>, b: nat)
    requires b <= |batches|
    ensures Offset(batches, b) == |Flatten(batches[..b])| <= |Flatten(batches)|
  {
    FlattenPrefix(batches, b);
    if b > 0 {
      OffsetIsLength(batches, b - 1);
      assert batches[..b] == batches[..b - 1] + [batches[b - 1]];
      FlattenSnoc(batches[..b - 1], batches[b - 1]);
    }
  }

  lemma {:induction false} FlattenPrefix(batches: seq<Batch>, b: nat)
    requires b <= |batches|
    ensures Flatten(batches[..b]) <= Flatten(batches)
    decreases |batches|
  {
    if b == |batches| {
      assert batches[..b] == batches;
    } else {
      FlattenPrefix(batches[..|batches| - 1], b);
      assert batches[..|batches| - 1][..b] == batches[..b];
    }
  }

  lemma {:induction false} FlattenAt(batches: seq<Batch>, b: nat, j: nat)
    requires b < |batches| && j < |batches[b].uses|
    ensures Offset(batches, b) + j < |Flatten(batches)| && Flatten(batches)[Offset(batches, b) + j] == batches[b].uses[j]
  {
    hide Flatten, Offset;
    OffsetIsLength(batches, b);
    FlattenPrefix(batches, b + 1);
    assert batches[..b + 1] == batches[..b] + [batches[b]];
    FlattenSnoc(batches[..b], batches[b]);
    var before, upTo := Flatten(batches[..b]), Flatten(batches[..b + 1]);
    assert upTo[|before| + j] == batches[b].uses[j] && Flatten(batches)[|before| + j] == upTo[|before| + j];
  }

  lemma {:induction false} SerialBatch(batches: seq<Batch>, b: nat, i: nat, j: nat, safe: ToolUse -> bool)
    requires WellBatched(batches, safe) && b < |batches| && !batches[b].concurrent
    requires InBatch(batches, b, i) && InBatch(batches, b, j)
    ensures i == j
  {
  }

  /** Nothing runs once the last result of the batch is out. */
  lemma {:induction false} AllIdle(batches: seq<Batch>, limit: nat, s: State, safe: ToolUse -> bool, answers: nat -> Answers)
    requires WellBatched(batches, safe) && Inv(batches, limit, s, answers) && s.batch < |batches|
    requires |s.sent| == Offset(batches, s.batch) + |batches[s.batch].uses|
    ensures s.running == {}
  {
    hide Flatten, Offset, Reported;
    assert BatchDone(batches, s);
    assert forall i :: i !in s.running;
  }

  lemma {:induction false} StartKeepsInv(batches: seq<Batch>, limit: nat, s: State, i: nat, safe: ToolUse -> bool, answers: nat -> Answers)
    requires WellBatched(batches, safe) && limit > 0
    requires Inv(batches, limit, s, answers) && Enabled(batches, limit, s, Start(i)) && Reports(Flatten(batches), answers, Start(i))
    ensures Inv(batches, limit, Do(s, Start(i)), answers)
  {
    hide Flatten, Offset, Reported;
    if !batches[s.batch].concurrent {
      forall j | j in s.running
        ensures j == i
      {
        SerialBatch(batches, s.batch, i, j, safe);
      }
      assert s.running == {};
    }
  }

  lemma {:induction false} FinishKeepsInv(batches: seq<Batch>, limit: nat, s: State, i: nat, result: ToolResult, safe: ToolUse -> bool, answers: nat -> Answers)
    requires WellBatched(batches, safe) && limit > 0
    requires Inv(batches, limit, s, answers) && Enabled(batches, limit, s, Finish(i, result)) && Reports(Flatten(batches), answers, Finish(i, result))
    ensures Inv(batches, limit, Do(s, Finish(i, result)), answers)
  {
    hide Flatten, Offset, Reported;
    assert s.running - {i} <= s.running;
  }

  lemma {:induction false} SendKeepsInv(batches: seq<Batch>, limit: nat, s: State, safe: ToolUse -> bool, answers: nat -> Answers)
    requires WellBatched(batches, safe) && limit > 0
    requires Inv(batches, limit, s, answers) && Enabled(batches, limit, s, Send) && Reports(Flatten(batches), answers, Send)
    ensures Inv(batches, limit, Do(s, Send), answers)
  {
    hide Flatten, Offset, Reported;
  }

  lemma {:induction false} NextBatchKeepsInv(batches: seq<Batch>, limit: nat, s: State, safe: ToolUse -> bool, answers: nat -> Answers)
    requires WellBatched(batches, safe) && limit > 0
    requires Inv(batches, limit, s, answers) && Enabled(batches, limit, s, NextBatch)
    ensures Inv(batches, limit, Do(s, NextBatch), answers)
  {
    hide Flatten, Reported;
    AllIdle(batches, limit, s, safe, answers);
  }

  lemma {:induction false} StepKeepsInv(batches: seq<Batch>, limit: nat, s: State, step: Step, safe: ToolUse -> bool, answers: nat -> Answers)
    requires WellBatched(batches, safe) && limit > 0
    requires Inv(batches, limit, s, answers) && Enabled(batches, limit, s, step) && Reports(Flatten(batches), answers, step)
    ensures Inv(batches, limit, Do(s, step), answers)
  {
    hide Flatten, Inv, WellBatched, Reports, Do;
    match step
    case Start(i) => StartKeepsInv(batches, limit, s, i, safe, answers);
    case Finish(i, result) => FinishKeepsInv(batches, limit, s, i, result, safe, answers);
    case Send => SendKeepsInv(batches, limit, s, safe, answers);
    case NextBatch => NextBatchKeepsInv(batches, limit, s, safe, answers);
  }

  lemma {:induction false} RunKeepsInv(batches: seq<Batch>, limit: nat, s: State, steps: seq<Step>, safe: ToolUse -> bool, answers: nat -> Answers)
    requires WellBatched(batches, safe) && limit > 0 && Inv(batches, limit, s, answers) && CanRun(batches, limit, s, steps, answers)
    ensures Inv(batches, limit, After(batches, limit, s, steps, answers), answers)
    decreases |steps|
  {
    hide Inv, Do, WellBatched, Reports, Reported;
    if steps != [] {
      StepKeepsInv(batches, limit, s, steps[0], safe, answers);
      RunKeepsInv(batches, limit, Do(s, steps[0]), steps[1..], safe, answers);
    }
  }

  lemma {:induction false} IdleInv(batches: seq<Batch>, limit: nat, answers: nat -> Answers)
    ensures Inv(batches, limit, IDLE, answers)
  {
  }

  /** Each use's results, in the order of the uses, as far as they are sent. */
  ghost predicate InOrder(uses: seq<ToolUse>, answers: nat -> Answers, sent: seq<ToolResult>) {
    |sent| <= |uses| && forall i :: 0 <= i < |sent| ==> Reported(uses[i], answers(i), sent[i])
  }

  /**
    Every schedule of a run: at most limit tools at once, a tool that is not concurrency-safe only by
    itself, result i is what use i reported, and there is one for each use when the run is over.
   */
  lemma {:induction false} EverySchedule(uses: seq<ToolUse>, batches: seq<Batch>, limit: nat, steps: seq<Step>, safe: ToolUse -> bool, answers: nat -> Answers)
    requires Flatten(batches) == uses && WellBatched(batches, safe)
    requires limit > 0 && CanRun(batches, limit, IDLE, steps, answers)
    ensures var s := After(batches, limit, IDLE, steps, answers);
            && |s.running| <= limit
            && (forall i :: i in s.running ==> i < |uses|)
            && (forall i :: i in s.running && !safe(uses[i]) ==> s.running == {i})
            && InOrder(uses, answers, s.sent) && (forall i :: 0 <= i < |s.sent| ==> i in s.done && s.sent[i] == s.done[i])
            && (s.batch == |batches| ==> |s.sent| == |uses| && s.running == {})
  {
    IdleInv(batches, limit, answers);
    RunKeepsInv(batches, limit, IDLE, steps, safe, answers);
    var s := After(batches, limit, IDLE, steps, answers);
    hide After, CanRun, Flatten, Reported;
    OffsetIsLength(batches, |batches|);
    assert batches[..|batches|] == batches;
    if s.batch < |batches| {
      OffsetIsLength(batches, s.batch + 1);
      RunningUses(batches, limit, s, safe, answers);
    }
  }

  lemma {:induction false} RunningUses(batches: seq<Batch>, limit: nat, s: State, safe: ToolUse -> bool, answers: nat -> Answers)
    requires WellBatched(batches, safe) && Inv(batches, limit, s, answers) && s.batch < |batches|
    ensures forall i :: i in s.running ==> i < |Flatten(batches)|
    ensures forall i :: i in s.running && !safe(Flatten(batches)[i]) ==> s.running == {i}
  {
    hide Flatten;
    forall i | i in s.running
      ensures i < |Flatten(batches)| && (!safe(Flatten(batches)[i]) ==> s.running == {i})
    {
      FlattenAt(batches, s.batch, i - Offset(batches, s.batch));
      if !batches[s.batch].concurrent {
        forall j | j in s.running
          ensures j == i
        {
          SerialBatch(batches, s.batch, i, j, safe);
        }
      }
    }
  }

  /** A result that reports the answers. */
  function SomeReport(use: ToolUse, a: Answers): (r: ToolResult)
    ensures Reported(use, a, r)
  {
    var seen := Seen(use, a);
    if !AllGatesOpen(a) then ErrorResult(seen, Refusal(use, a))
    else if a.outcome.Err? then ErrorResult(seen, a.outcome.error)
    else a.outcome.value.(toolUseID := seen.id, name := seen.name)
  }

  /** A run is never stuck before it is over. */
  lemma {:induction false} NeverStuck(batches: seq<Batch>, limit: nat, steps: seq<Step>, safe: ToolUse -> bool, answers: nat -> Answers)
      returns (next: Step)
    requires WellBatched(batches, safe) && limit > 0 && CanRun(batches, limit, IDLE, steps, answers)
    requires After(batches, limit, IDLE, steps, answers).batch < |batches|
    ensures Enabled(batches, limit, After(batches, limit, IDLE, steps, answers), next) && Reports(Flatten(batches), answers, next)
  {
    hide After, CanRun, Flatten, Reported, WellBatched;
    IdleInv(batches, limit, answers);
    RunKeepsInv(batches, limit, IDLE, steps, safe, answers);
    var s := After(batches, limit, IDLE, steps, answers);
    next := NextStep(batches, limit, s, safe, answers);
  }

  lemma {:induction false} NextStep(batches: seq<Batch>, limit: nat, s: State, safe: ToolUse -> bool, answers: nat -> Answers)
      returns (next: Step)
    requires WellBatched(batches, safe) && limit > 0 && Inv(batches, limit, s, answers) && s.batch < |batches|
    ensures Enabled(batches, limit, s, next) && Reports(Flatten(batches), answers, next)
  {
    hide Flatten, Reported, Offset;
    if s.running != {} {
      var i :| i in s.running;
      RunningUses(batches, limit, s, safe, answers);
      next := Finish(i, SomeReport(Flatten(batches)[i], answers(i)));
    } else if BatchDone(batches, s) {
      next := if |s.sent| == Offset(batches, s.batch) + |batches[s.batch].uses| then NextBatch else Send;
    } else {
      var i :| Offset(batches, s.batch) <= i < Offset(batches, s.batch) + |batches[s.batch].uses| && i !in s.done;
      next := Start(i);
    }
  }

  // ----- Every run ends -----

  /** Each use costs a start, a finish and a send, and each batch one step more. */
  ghost function Work(s: State): nat {
    |s.running| + 2 * |s.done| + |s.sent| + s.batch
  }

  lemma {:induction false} StepWorks(batches: seq<Batch>, limit: nat, s: State, step: Step, answers: nat -> Answers)
    requires Inv(batches, limit, s, answers) && Enabled(batches, limit, s, step)
    ensures Work(Do(s, step)) == Work(s) + 1
  {
    hide Flatten, Offset, BatchDone;
  }

  lemma {:induction false} RunWorks(batches: seq<Batch>, limit: nat, s: State, steps: seq<Step>, safe: ToolUse -> bool, answers: nat -> Answers)
    requires WellBatched(batches, safe) && limit > 0 && Inv(batches, limit, s, answers) && CanRun(batches, limit, s, steps, answers)
    ensures Work(After(batches, limit, s, steps, answers)) == Work(s) + |steps|
    decreases |steps|
  {
    hide Inv, Do, WellBatched, Reports, Work;
    if steps != [] {
      StepKeepsInv(batches, limit, s, steps[0], safe, answers);
      StepWorks(batches, limit, s, steps[0], answers);
      RunWorks(batches, limit, Do(s, steps[0]), steps[1..], safe, answers);
    }
  }

  lemma {:induction false} FewBelow(xs: set<nat>, n: nat)
    requires forall x :: x in xs ==> x < n
    ensures |xs| <= n
    decreases n
  {
    if n == 0 {
      assert xs == {};
    } else {
      FewBelow(xs - {n - 1}, n - 1);
    }
  }

  /** No schedule takes more than three steps a use and one a batch. */
  lemma {:induction false} EveryRunEnds(batches: seq<Batch>, limit: nat, steps: seq<Step>, safe: ToolUse -> bool, answers: nat -> Answers)
    requires WellBatched(batches, safe) && limit > 0 && CanRun(batches, limit, IDLE, steps, answers)
    ensures |steps| <= 3 * |Flatten(batches)| + |batches|
  {
    var uses, s := Flatten(batches), After(batches, limit, IDLE, steps, answers);
    IdleInv(batches, limit, answers);
    RunKeepsInv(batches, limit, IDLE, steps, safe, answers);
    RunWorks(batches, limit, IDLE, steps, safe, answers);
    EverySchedule(uses, batches, limit, steps, safe, answers);
    hide After, CanRun, Flatten, Reported;
    DoneApart(batches, limit, s, answers);
    FewBelow(s.running + s.done.Keys, |uses|);
    assert |s.done.Keys| == |s.done|;
  }

  lemma {:induction false} DoneApart(batches: seq<Batch>, limit: nat, s: State, answers: nat -> Answers)
    requires Inv(batches, limit, s, answers)
    ensures s.running !! s.done.Keys && forall i :: i in s.done.Keys ==> i < |Flatten(batches)|
    ensures |s.running + s.done.Keys| == |s.running| + |s.done.Keys|
  {
    hide Flatten, Offset, BatchDone;
  }

  // ----- Run, as its caller sees it -----

  lemma {:induction false} UseOfBatch(batches: seq<Batch>, b: nat, j: nat)
    requires b < |batches| && j < |batches[b].uses|
    ensures Offset(batches, b + 1) == Offset(batches, b) + |batches[b].uses| <= |Flatten(batches)|
    ensures Flatten(batches)[Offset(batches, b) + j] == batches[b].uses[j]
  {
    hide Flatten;
    OffsetIsLength(batches, b + 1);
    FlattenAt(batches, b, j);
  }

  /** One result for each of the uses from, …, to - 1, in their order. */
  ghost predicate ResultsFor(uses: seq<ToolUse>, from: nat, to: nat, answers: nat -> Answers, results: seq<ToolResult>)
    requires from <= to <= |uses|
  {
    |results| == to - from && forall k :: 0 <= k < |results| ==> Reported(uses[from + k], answers(from + k), results[k])
  }

  /**
    Run on uses[from..to], where answers(i) are the answers for use i. In a concurrent batch the tools
    may run in any order; ScheduleIsRun shows that the results are then the same.
   */
  method Run(uses: seq<ToolUse>, from: nat, to: nat, answers: nat -> Answers, safe: ToolUse -> bool)
      returns (results: seq<ToolResult>)
    requires from <= to <= |uses|
    ensures ResultsFor(uses, from, to, answers, results)
  {
    hide Flatten, WellBatched, Maximal, Reported;
    var batches := Partition(uses[from..to], safe);
    OffsetIsLength(batches, |batches|);
    assert batches[..|batches|] == batches;
    results := [];
    for b := 0 to |batches|
      invariant |results| == Offset(batches, b) <= to - from
      invariant forall k :: 0 <= k < |results| ==> Reported(uses[from + k], answers(from + k), results[k])
    {
      OffsetIsLength(batches, b + 1);
      for j := 0 to |batches[b].uses|
        invariant |results| == Offset(batches, b) + j
        invariant forall k :: 0 <= k < |results| ==> Reported(uses[from + k], answers(from + k), results[k])
      {
        UseOfBatch(batches, b, j);
        var r, executed := RunOne(batches[b].uses[j], answers(from + |results|));
        results := results + [r];
      }
    }
  }

  /** Every complete schedule of the batches of uses[from..to] sends what Run promises. */
  lemma {:induction false} ScheduleIsRun(
      uses: seq<ToolUse>, from: nat, to: nat, answers: nat -> Answers, batches: seq<Batch>, limit: nat, steps: seq<Step>,
      safe: ToolUse -> bool, own: nat -> Answers)
    requires from <= to <= |uses| && Flatten(batches) == uses[from..to] && WellBatched(batches, safe) && limit > 0
    requires forall i :: 0 <= i < to - from ==> own(i) == answers(from + i)
    requires CanRun(batches, limit, IDLE, steps, own) && After(batches, limit, IDLE, steps, own).batch == |batches|
    ensures ResultsFor(uses, from, to, answers, After(batches, limit, IDLE, steps, own).sent)
  {
    hide After, CanRun, Flatten, Reported, WellBatched;
    EverySchedule(uses[from..to], batches, limit, steps, safe, own);
    InOrderIsRun(uses, from, to, answers, own, After(batches, limit, IDLE, steps, own).sent);
  }

  lemma {:induction false} InOrderIsRun(
      uses: seq<ToolUse>, from: nat, to: nat, answers: nat -> Answers, own: nat -> Answers, sent: seq<ToolResult>)
    requires from <= to <= |uses| && InOrder(uses[from..to], own, sent) && |sent| == to - from
    requires forall i :: 0 <= i < to - from ==> own(i) == answers(from + i)
    ensures ResultsFor(uses, from, to, answers, sent)
  {
    hide Reported;
    forall k | 0 <= k < |sent|
      ensures Reported(uses[from + k], answers(from + k), sent[k])
    {
      assert uses[from..to][k] == uses[from + k] && own(k) == answers(from + k);
      assert Reported(uses[from..to][k], own(k), sent[k]);
    }
  }
}
