/** agent.go, runLoop: the results of one turn's tool uses. */
module ToolBatch {
  import opened Wrappers
  import opened Transcript
  import opened Runs
  import E = Executor
  import Collect

  // ----- Tool results -----

  /** The message is the result of running the use. */
  ghost predicate ResultOf(m: Message, use: ToolUse, a: E.Answers) {
    m.result.Some? && m == ResultMessage(m.result.value) && E.Reported(use, a, m.result.value)
  }

  ghost predicate ResultsOf(ms: seq<Message>, uses: seq<ToolUse>, answers: nat -> E.Answers) {
    |ms| <= |uses| && forall k :: 0 <= k < |ms| ==> ResultOf(ms[k], uses[k], answers(k))
  }

  ghost predicate IDsKept(uses: seq<ToolUse>, answers: nat -> E.Answers) {
    forall k :: 0 <= k < |uses| ==> E.KeepsID(uses[k], answers(k))
  }

  lemma {:induction false} ResultsAnswer(ms: seq<Message>, uses: seq<ToolUse>, answers: nat -> E.Answers)
    requires ResultsOf(ms, uses, answers) && |ms| == |uses| && IDsKept(uses, answers)
    ensures AnswerAll(ms, uses)
  {
    hide E.KeepsID, E.AllGatesOpen;
    forall k | 0 <= k < |uses|
      ensures Answers(ms[k], uses[k])
    {
      assert ResultOf(ms[k], uses[k], answers(k));
      assert E.KeepsID(uses[k], answers(k));
    }
  }

  /** handleToolResult */
  method HandleToolResult(w: World, notes: nat, r: ToolResult, transcript0: seq<Message>, events0: seq<Event>)
      returns (ok: bool, transcript: seq<Message>, events: seq<Event>)
    ensures ok == !w.appendFails(|transcript0|)
    ensures transcript == if ok then transcript0 + [ResultMessage(r)] else transcript0
    ensures Continues(events0, events, 1) && events0 + [ToolResultSeen(r)] <= events
    ensures if ok then InStep(transcript0, events0, transcript, events) else Behind(transcript0, events0, transcript, events)
  {
    hide Told, Observed, Shown, Quiet, InStep, Behind;
    ContinuesBy(events0, events0, ToolResultSeen(r), 0);
    ToldSnoc(events0, ToolResultSeen(r));
    events := events0 + [ToolResultSeen(r)];
    hide Continues;
    for i := 0 to notes
      invariant Continues(events0, events, 1) && events0 + [ToolResultSeen(r)] <= events
      invariant Told(events) == Told(events0) + [Done(r)]
    {
      ContinuesBy(events0, events, ToolNote, 1);
      ToldSnoc(events, ToolNote);
      events := events + [ToolNote];
    }
    ok, transcript := !w.appendFails(|transcript0|), transcript0;
    if ok {
      InStepBy(transcript0, ResultMessage(r), events0, events);
      transcript := transcript0 + [ResultMessage(r)];
    } else {
      BehindBy(transcript0, events0, events);
    }
  }

  /** The number of uses below n that were not started early. */
  function Late(early: set<nat>, n: nat): nat {
    if n == 0 then 0 else Late(early, n - 1) + (if n - 1 in early then 0 else 1)
  }

  lemma {:induction false} LateTotal(early: set<nat>, n: nat)
    requires forall k :: k in early ==> k < n
    ensures Late(early, n) + |early| == n
    decreases n
  {
    if n == 0 {
      assert early == {};
    } else {
      LateTotal(early - {n - 1}, n - 1);
      LateSame(early, early - {n - 1}, n - 1);
    }
  }

  lemma {:induction false} LateSame(a: set<nat>, b: set<nat>, n: nat)
    requires forall k :: 0 <= k < n ==> (k in a <==> k in b)
    ensures Late(a, n) == Late(b, n)
    decreases n
  {
    if n > 0 {
      LateSame(a, b, n - 1);
    }
  }

  lemma {:induction false} ResultsSnoc(ms: seq<Message>, r: ToolResult, uses: seq<ToolUse>, answers: nat -> E.Answers)
    requires ResultsOf(ms, uses, answers) && |ms| < |uses| && E.Reported(uses[|ms|], answers(|ms|), r)
    ensures ResultsOf(ms + [ResultMessage(r)], uses, answers)
  {
    hide E.Reported;
  }

  /** The uses from start on that were not started early. */
  method NextEarly(early: set<nat>, start: nat, n: nat) returns (i: nat)
    requires start < n && start !in early
    ensures start < i <= n && (i < n ==> i in early)
    ensures Late(early, i) == Late(early, start) + (i - start)
  {
    i := start;
    while i < n && i !in early
      invariant start <= i <= n && (i == start ==> i !in early)
      invariant Late(early, i) == Late(early, start) + (i - start)
    {
      i := i + 1;
    }
  }

  ghost predicate RunFrom(results: seq<ToolResult>, uses: seq<ToolUse>, start: nat, answers: nat -> E.Answers) {
    && start + |results| <= |uses|
    && forall k :: 0 <= k < |results| ==> E.Reported(uses[start + k], answers(start + k), results[k])
  }

  /** Handling the results of the uses from start on; got are the messages handled before and here. */
  method HandleToolResults(w: World, input: TurnInput, uses: seq<ToolUse>, start: nat, results: seq<ToolResult>,
                           transcript0: seq<Message>, events0: seq<Event>, ghost got0: seq<Message>)
      returns (ok: bool, transcript: seq<Message>, events: seq<Event>, ghost got: seq<Message>, ghost shown: nat)
    requires RunFrom(results, uses, start, input.answers)
    requires ResultsOf(got0, uses, input.answers) && |got0| == start
    ensures ResultsOf(got, uses, input.answers) && got0 <= got
    ensures Continues(events0, events, shown) && shown <= |results| && (ok ==> shown == |results|)
    ensures transcript == transcript0 + got[start..]
    ensures ok ==> |got| == start + |results|
    ensures !ok ==> w.appendFails(|transcript|)
    ensures if ok then InStep(transcript0, events0, transcript, events) else Behind(transcript0, events0, transcript, events)
  {
    hide E.Reported, ResultsOf, Observed, Quiet, Shown, Told, InStep, Behind;
    transcript, events, got, shown := transcript0, events0, got0, 0;
    InStepSilent(transcript, events, events);
    for k := 0 to |results|
      invariant InStep(transcript0, events0, transcript, events)
      invariant got0 <= got && |got| == start + k && transcript == transcript0 + got[start..]
      invariant ResultsOf(got, uses, input.answers) && Continues(events0, events, shown) && shown == k
    {
      ResultsSnoc(got, results[k], uses, input.answers);
      ghost var ms, es := transcript, events;
      ok, transcript, events := HandleToolResult(w, input.notes(start + k), results[k], transcript, events);
      InStepOn(transcript0, events0, ms, es, transcript, events);
      shown := shown + 1;
      if !ok {
        return;
      }
      got := got + [ResultMessage(results[k])];
    }
    ok := true;
  }

  /** The tool batch: early results and runs of the executor, in the order of the uses. */
  method RunTools(opts: Options, w: World, input: TurnInput, uses: seq<ToolUse>, early: map<nat, ToolResult>,
                  transcript0: seq<Message>, events0: seq<Event>)
      returns (ok: bool, transcript: seq<Message>, events: seq<Event>, runs: nat, ghost shown: nat)
    requires Collect.EarlyOf(early, uses, input.answers)
    ensures runs <= |uses| - |early| && (ok ==> runs == |uses| - |early|)
    ensures Continues(events0, events, shown) && shown <= runs + |early| && (ok ==> shown == |uses|)
    ensures transcript0 <= transcript && ResultsOf(transcript[|transcript0|..], uses, input.answers)
    ensures ok ==> |transcript| == |transcript0| + |uses|
    ensures !ok ==> w.appendFails(|transcript|)
    ensures if ok then InStep(transcript0, events0, transcript, events) else Behind(transcript0, events0, transcript, events)
  {
    hide E.Reported, Late, ResultsOf, Observed, Quiet, Shown, Told, InStep, Behind;
    transcript, events, runs, shown := transcript0, events0, 0, 0;
    InStepSilent(transcript, events, events);
    ghost var got: seq<Message> := [];
    NoResults(uses, input.answers, early.Keys);
    LateTotal(early.Keys, |uses|);
    var i := 0;
    while i < |uses|
      invariant i <= |uses| && transcript == transcript0 + got && |got| == i
      invariant ResultsOf(got, uses, input.answers) && Continues(events0, events, shown) && shown == i
      invariant runs == Late(early.Keys, i) && runs <= |uses| - |early.Keys|
      invariant InStep(transcript0, events0, transcript, events)
    {
      LateStep(early.Keys, i);
      var start, results := i, [];
      if i in early {
        results, i := [early[i]], i + 1;
      } else {
        i := NextEarly(early.Keys, start, |uses|);
        results := E.Run(uses, start, i, input.answers, opts.safe);
        runs := runs + |results|;
      }
      LateGrows(early.Keys, i, |uses|);
      ghost var before, more := got, 0;
      ghost var ms, es := transcript, events;
      ok, transcript, events, got, more := HandleToolResults(w, input, uses, start, results, transcript, events, got);
      InStepOn(transcript0, events0, ms, es, transcript, events);
      shown := shown + more;
      assert transcript0 + before + got[start..] == transcript0 + got;
      if !ok {
        return;
      }
    }
    ok := true;
  }

  lemma {:induction false} NoResults(uses: seq<ToolUse>, answers: nat -> E.Answers, early: set<nat>)
    ensures ResultsOf([], uses, answers) && Late(early, 0) == 0
  {
  }

  lemma {:induction false} LateStep(early: set<nat>, i: nat)
    ensures Late(early, i + 1) == Late(early, i) + (if i in early then 0 else 1)
  {
  }

  lemma {:induction false} LateGrows(early: set<nat>, i: nat, n: nat)
    requires i <= n
    ensures Late(early, i) <= Late(early, n) <= Late(early, i) + (n - i)
    decreases n
  {
    if i < n {
      LateGrows(early, i, n - 1);
    }
  }

  // ----- A stream that failed -----

  const CANCELED := "tool execution canceled because model streaming stopped"

  /** The uses below n that were started early. */
  function Started(uses: seq<ToolUse>, early: map<nat, ToolResult>, n: nat): seq<ToolUse>
    requires n <= |uses|
  {
    if n == 0 then [] else Started(uses, early, n - 1) + (if n - 1 in early then [uses[n - 1]] else [])
  }

  function CanceledResult(use: ToolUse): ToolResult {
    ToolResult(use.id, use.name, CANCELED, true, NO_MARKS)
  }

  /** The results of those uses: what the tool reported if it did in time, and an error otherwise. */
  function Settled(uses: seq<ToolUse>, early: map<nat, ToolResult>, ready: nat -> bool, n: nat): seq<Message>
    requires n <= |uses|
  {
    if n == 0 then []
    else Settled(uses, early, ready, n - 1) +
         (if n - 1 !in early then []
          else [ResultMessage(if ready(n - 1) then early[n - 1] else CanceledResult(uses[n - 1]))])
  }

  /** When tools keep the ids of their uses, these results answer the started uses, one for one. */
  lemma {:induction false} SettledAnswers(uses: seq<ToolUse>, early: map<nat, ToolResult>, input: TurnInput, n: nat)
    requires n <= |uses| && Collect.EarlyOf(early, uses, input.answers) && IDsKept(uses, input.answers)
    ensures AnswerAll(Settled(uses, early, input.ready, n), Started(uses, early, n))
    decreases n
  {
    hide Collect.EarlyOf, IDsKept, E.Reported;
    if n > 0 {
      SettledAnswers(uses, early, input, n - 1);
      if n - 1 in early {
        KeptID(uses, early, input.answers, n - 1);
      }
    }
  }

  /** emitCanceledEarlyToolResults; ready tells which tools reported in time */
  method EmitCanceledEarlyToolResults(w: World, input: TurnInput, uses: seq<ToolUse>, early: map<nat, ToolResult>,
                                      transcript0: seq<Message>, events0: seq<Event>)
      returns (ok: bool, transcript: seq<Message>, events: seq<Event>, ghost shown: nat)
    requires Collect.EarlyOf(early, uses, input.answers)
    ensures Continues(events0, events, shown) && shown <= |early| && (ok ==> shown == |early|) && transcript0 <= transcript
    ensures ok ==> transcript == transcript0 + Settled(uses, early, input.ready, |uses|)
    ensures !ok ==> early != map[] && w.appendFails(|transcript|)
    ensures uses == [] ==> transcript == transcript0 && events == events0
    ensures !ok ==> exists k :: 0 <= k < |uses| && k in early && transcript == transcript0 + Settled(uses, early, input.ready, k)
    ensures if ok then InStep(transcript0, events0, transcript, events) else Behind(transcript0, events0, transcript, events)
  {
    hide E.Reported, Settled, Observed, Quiet, Shown, Late, Told, InStep, Behind, CanceledResult;
    transcript, events, shown := transcript0, events0, 0;
    InStepSilent(transcript, events, events);
    NoResults(uses, input.answers, early.Keys);
    LateTotal(early.Keys, |uses|);
    assert Settled(uses, early, input.ready, 0) == [] by { NoneSettled(uses, early, input.ready); }
    for i := 0 to |uses|
      invariant Continues(events0, events, shown) && shown + Late(early.Keys, i) == i
      invariant transcript == transcript0 + Settled(uses, early, input.ready, i)
      invariant InStep(transcript0, events0, transcript, events)
      invariant i == 0 ==> transcript == transcript0 && events == events0
    {
      OneMoreSettled(uses, early, input.ready, i);
      LateStep(early.Keys, i);
      LateGrows(early.Keys, i + 1, |uses|);
      if i in early {
        var r := CanceledResult(uses[i]);
        if input.ready(i) {
          r := early[i];
        }
        ContinuesBy(events0, events, ToolResultSeen(r), shown);
        ShownResult(transcript0, events0, transcript, events, r);
        events := events + [ToolResultSeen(r)];
        shown := shown + 1;
        if w.appendFails(|transcript|) {
          return false, transcript, events, shown;
        }
        transcript := transcript + [ResultMessage(r)];
      }
    }
    ok := true;
  }

  lemma {:induction false} NoneSettled(uses: seq<ToolUse>, early: map<nat, ToolResult>, ready: nat -> bool)
    ensures Settled(uses, early, ready, 0) == []
  {
  }

  lemma {:induction false} OneMoreSettled(uses: seq<ToolUse>, early: map<nat, ToolResult>, ready: nat -> bool, i: nat)
    requires i < |uses|
    ensures Settled(uses, early, ready, i + 1) ==
            Settled(uses, early, ready, i) +
            (if i !in early then [] else [ResultMessage(if ready(i) then early[i] else CanceledResult(uses[i]))])
  {
  }

  /** A result is shown, and then stored or not. */
  lemma {:induction false} ShownResult(ms0: seq<Message>, events0: seq<Event>, ms: seq<Message>, events: seq<Event>, r: ToolResult)
    requires InStep(ms0, events0, ms, events)
    ensures InStep(ms0, events0, ms + [ResultMessage(r)], events + [ToolResultSeen(r)])
    ensures Behind(ms0, events0, ms, events + [ToolResultSeen(r)])
  {
    hide Told, InStep, Behind;
    var events' := events + [ToolResultSeen(r)];
    ToldSnoc(events, ToolResultSeen(r));
    InStepBy(ms, ResultMessage(r), events, events');
    BehindBy(ms, events, events');
    InStepOn(ms0, events0, ms, events, ms + [ResultMessage(r)], events');
    InStepOn(ms0, events0, ms, events, ms, events');
  }

  lemma {:induction false} KeptID(uses: seq<ToolUse>, early: map<nat, ToolResult>, answers: nat -> E.Answers, i: nat)
    requires Collect.EarlyOf(early, uses, answers) && i in early
    ensures IDsKept(uses, answers) ==> early[i].toolUseID == uses[i].id
  {
    hide E.AllGatesOpen;
  }

  // ----- What is left for the batch -----

  /** When exactly the safe uses were started early, the others are left. */
  lemma {:induction false} LateAreUnsafe(uses: seq<ToolUse>, early: map<nat, ToolResult>, safe: ToolUse -> bool, n: nat)
    requires Collect.SafeStarted(early, uses, safe) && Collect.OnlySafe(early, uses, safe) && n <= |uses|
    ensures Late(early.Keys, n) == Unsafe(uses[..n], safe)
    decreases n
  {
    if n > 0 {
      LateAreUnsafe(uses, early, safe, n - 1);
      assert uses[..n][..n - 1] == uses[..n - 1] && uses[..n][n - 1] == uses[n - 1];
    }
  }

  lemma {:induction false} RemainingAreUnsafe(uses: seq<ToolUse>, early: map<nat, ToolResult>, safe: ToolUse -> bool)
    requires Collect.SafeStarted(early, uses, safe) && Collect.OnlySafe(early, uses, safe)
    ensures |early| <= |uses| && |uses| - |early| == Unsafe(uses, safe)
  {
    LateAreUnsafe(uses, early, safe, |uses|);
    LateTotal(early.Keys, |uses|);
    hide Late, Unsafe;
    assert uses[..|uses|] == uses && |early| == |early.Keys|;
  }
}
