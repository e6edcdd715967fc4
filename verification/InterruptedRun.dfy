/**
  A run of CompactionRuns in which preparation makes up a result: it compacts twice although little was
  appended in between.
 */
module InterruptedRun {
  import opened Wrappers
  import opened Transcript
  import opened ContextWindow
  import opened Sessions
  import opened RepairCost
  import opened CompactionRuns
  import S = StreamText
  import C = AssistantContent
  import R = TranscriptRepair
  import Q = Requests

  /** Three tokens for what a user or a tool says, one for anything else. */
  function Weigh(m: Message): int {
    if !m.isSummary && (m.role.Tool? || m.role.User?) then 3 else 1
  }

  /** MaxTokens 4, one of them for the summary, and a trigger of 5. */
  ghost predicate Small(t: Setting) {
    t.p == SummarizingBudget(4, 5, 1, User, "") && t.est == Weigh
  }

  /** A question, a summary, and a message with one tool use. */
  ghost predicate Parts(x: Message, s: Message, m: Message, use: ToolUse) {
    && x == TextMessage(User, "x") && s == TextMessage(User, "s").(isSummary := true)
    && m == Message("", Assistant, [Use(use)], None, false) && use.id != ""
  }

  lemma {:induction false} Roles(x: Message, s: Message, m: Message, use: ToolUse)
    requires Parts(x, s, m, use)
    ensures x.role.User? && !x.isSummary && s.role.User? && s.isSummary && m.role.Assistant? && !m.isSummary && UsesOf(m) == [use]
    ensures s.result.None? && |s.content| == 1 && s.content[0].Text? && UsesOf(x) == [] && UsesOf(s) == [] && use.id != ""
    ensures m.content == [Use(use)] && R.Interrupted(use).role.Tool? && !R.Interrupted(use).isSummary
  {
    assert m.content[..0] == [] && Uses([]) == [];
    assert Uses(m.content) == Uses(m.content[..0]) + [use];
  }

  // ----- Preparing the messages -----

  lemma {:induction false} UserIsNormal(ms: seq<Message>, u: S.Unicode)
    requires forall i :: 0 <= i < |ms| ==> !ms[i].role.Assistant?
    ensures Q.NormalMessages(ms, u) == ms
  {
    hide Q.NormalMessages, C.Normalize;
    Q.NormalFixed(ms, u);
  }

  lemma {:induction false} CallIsNormal(m: Message, use: ToolUse, u: S.Unicode)
    requires m.content == [Use(use)]
    ensures Q.NormalMessages([m], u) == [m]
  {
    hide Q.NormalMessages;
    C.FoldSnoc([], Use(use), u);
    assert [] + [Use(use)] == [Use(use)];
    assert C.Fold([], u) == C.Folded([], S.FRESH);
    Q.NormalFixed([m], u);
  }

  lemma {:induction false} UsersArePaired(ms: seq<Message>)
    requires forall i :: 0 <= i < |ms| ==> ms[i].role.User?
    ensures Paired(ms) && Q.Addressed(ms)
    decreases |ms|
  {
    if ms != [] {
      UsersArePaired(ms[1..]);
      PairedPlain(ms[0]);
      PairedConcat([ms[0]], ms[1..]);
      assert [ms[0]] + ms[1..] == ms;
    }
  }

  /** User messages are prepared as they are, and nothing is made up for them. */
  lemma {:induction false} UsersPrepared(ms: seq<Message>, t: Setting)
    requires forall i :: 0 <= i < |ms| ==> ms[i].role.User?
    ensures Q.Prepare(ms, t.u) == ms && Q.NormalMessages(ms, t.u) == ms && Synthetic(ms, t.est) == 0
  {
    hide *;
    UserIsNormal(ms, t.u);
    UsersArePaired(ms);
    Q.PairedIsSentWholeIff(ms, t.u);
    PairedIsServed(ms);
    ServedCostsNothing(ms, t.est);
  }

  lemma {:induction false} CallMadeUp(m: Message, use: ToolUse)
    requires UsesOf(m) == [use] && use.id != ""
    ensures MadeUp(m, []) == [R.Interrupted(use)] && R.RepairRun(m, []) == [R.Interrupted(use)]
  {
    assert [use][..0] == [];
    assert R.Missing([], []) == [] && R.Missing([use], []) == R.Missing([use][..0], []) + [R.Interrupted(use)];
  }

  lemma {:induction false} Bounds(m: Message)
    requires !m.role.Tool?
    ensures R.Cut([]) && R.AllTool([]) && R.Cut([m]) && R.Repair([]) == []
  {
  }

  lemma {:induction false} CallRepaired(m: Message, use: ToolUse, t: Setting)
    requires m.role.Assistant? && UsesOf(m) == [use] && use.id != ""
    ensures R.Repair([m]) == [m, R.Interrupted(use)] && Synthetic([m], t.est) == t.est(R.Interrupted(use))
  {
    assert Synthetic([], t.est) == 0;
    Bounds(m);
    hide *;
    CallMadeUp(m, use);
    assert [m] + [] + [] == [m];
    R.RepairGroup(m, [], []);
    GroupCost(m, [], [], t.est);
    OneMessage(R.Interrupted(use), t.est);
    assert [m] + [R.Interrupted(use)] + [] == [m, R.Interrupted(use)];
  }

  lemma {:induction false} NothingRepaired(a: Message, rest: seq<Message>)
    requires a.role.User? && rest != [] && !rest[0].role.Tool?
    ensures R.RepairRun(a, []) == [] && R.Cut(rest) && R.AllTool([])
  {
    assert UsesOf(a) == [] && R.Kept(R.UseIDs([]), []) == [] && R.Missing([], R.ResultIDs([])) == [];
  }

  lemma {:induction false} UserRepaired(a: Message, rest: seq<Message>)
    requires a.role.User? && rest != [] && !rest[0].role.Tool?
    ensures R.Repair([a] + rest) == [a] + R.Repair(rest)
  {
    hide *;
    NothingRepaired(a, rest);
    R.RepairGroup(a, [], rest);
    assert [a] + [] + rest == [a] + rest && [a] + [] + R.Repair(rest) == [a] + R.Repair(rest);
  }

  lemma {:induction false} ViewPrepared(x: Message, s: Message, m: Message, use: ToolUse, t: Setting)
    requires Parts(x, s, m, use)
    ensures Q.Prepare([s, x, m], t.u) == [s, x, m, R.Interrupted(use)]
  {
    hide *;
    Roles(x, s, m, use);
    CallRepaired(m, use, t);
    CallIsNormal(m, use, t.u);
    UsersPrepared([s, x], t);
    Q.NormalConcat([s, x], [m], t.u);
    assert [s, x] + [m] == [s, x, m];
    UserRepaired(x, [m]);
    UserRepaired(s, [x, m]);
    assert [x] + [m] == [x, m] && [s] + [x, m] == [s, x, m];
    assert [s] + ([x] + [m, R.Interrupted(use)]) == [s, x, m, R.Interrupted(use)];
    PrepareIs([s, x, m], t.u);
  }

  lemma {:induction false} PrepareIs(ms: seq<Message>, u: S.Unicode)
    ensures Q.Prepare(ms, u) == R.Repair(Q.NormalMessages(ms, u))
  {
  }

  // ----- The two compactions -----

  lemma {:induction false} Budgets(t: Setting)
    requires Small(t)
    ensures RecentBudget(t.p) == 3 && SummaryBudget(t.p) == 1 && Trigger(t.p) == 5 && Gap(t.p) == 2 && t.p.role.User? && t.est == Weigh
  {
  }

  lemma {:induction false} Weights(x: Message, s: Message, m: Message, i: Message, t: Setting)
    requires Small(t) && x.role.User? && !x.isSummary && s.isSummary && m.role.Assistant? && i.role.Tool? && !i.isSummary
    ensures t.est(x) == 3 && t.est(s) == 1 && t.est(m) == 1 && t.est(i) == 3
  {
  }

  /** The newest message fills the budget, so it is all that is kept, if it is not a result. */
  lemma {:induction false} KeepsLast(front: seq<Message>, last: Message, est: Estimator)
      returns (recent: seq<Message>, summarized: seq<Message>)
    requires est(last) == 3 && !last.isSummary
    ensures recent == (if last.role.Tool? then [] else [last]) && Compacted(front + [last], 3, est, recent, summarized)
  {
    var ms, n := front + [last], |front|;
    assert ms[n..] == [last] && ms[n + 1..] == [] && [last][1..] == [];
    assert Tokens([last], est) == 3 && Tokens([], est) == 0;
    assert NewestSuffix(ms, n, 3, est);
    var start := DropLeading(ms, n);
    assert start == if last.role.Tool? then n + 1 else n;
    assert NonSummaries([last]) == [last] + NonSummaries([]);
    recent, summarized := NonSummaries(ms[start..]), ms[..start] + Summaries(ms[start..]);
  }

  lemma {:induction false} IsOutput(t: Setting, view: seq<Message>, s: Message, out: seq<Message>)
    requires Small(t) && Tokens(view, t.est) > 5 && (forall i :: 0 <= i < |view| ==> t.est(view[i]) <= 3)
    requires s.isSummary && s.role.User? && s.result.None? && |s.content| == 1 && s.content[0].Text?
    requires out != [] && out[0] == s && exists summarized :: Compacted(view, 3, t.est, out[1..], summarized)
    ensures PolicyOutput(t, view, out)
  {
    hide Compacted, Tokens;
  }

  lemma {:induction false} FirstOutcome(x: Message, s: Message, m: Message, use: ToolUse, t: Setting)
    requires Parts(x, s, m, use) && Small(t)
    ensures PolicyOutput(t, [x, x], [s, x])
  {
    hide *;
    Roles(x, s, m, use);
    Budgets(t);
    Weights(x, s, m, R.Interrupted(use), t);
    var recent, _ := KeepsLast([x], x, t.est);
    assert [x] + [x] == [x, x] && [s, x][1..] == [x];
    TokensConcat([x], [x], t.est);
    OneMessage(x, t.est);
    IsOutput(t, [x, x], s, [s, x]);
  }

  lemma {:induction false} SecondOutcome(x: Message, s: Message, m: Message, use: ToolUse, t: Setting)
    requires Parts(x, s, m, use) && Small(t)
    ensures PolicyOutput(t, [s, x, m, R.Interrupted(use)], [s])
  {
    hide *;
    var i := R.Interrupted(use);
    Roles(x, s, m, use);
    Budgets(t);
    Weights(x, s, m, i, t);
    var recent, _ := KeepsLast([s, x, m], i, t.est);
    assert [s, x, m] + [i] == [s, x, m, i] && [s, x] + [m] == [s, x, m] && [s] + [x] == [s, x] && [s][1..] == [];
    TokensConcat([s, x, m], [i], t.est);
    TokensConcat([s, x], [m], t.est);
    TokensConcat([s], [x], t.est);
    OneMessage(s, t.est);
    OneMessage(x, t.est);
    OneMessage(m, t.est);
    OneMessage(i, t.est);
    IsOutput(t, [s, x, m, i], s, [s]);
  }

  lemma {:induction false} Compacts(r: Run, out: seq<Message>, view: seq<Message>, t: Setting)
    requires r.read.Some? && Q.Prepare(r.read.value.messages, t.u) == view && PolicyOutput(t, view, out)
    requires Q.Prepare(out, t.u) == out && Q.NormalMessages(out, t.u) == out && Synthetic(out, t.est) == 0
    ensures Enabled(r, Compact(out), t)
    ensures Do(r, Compact(out), t) ==
            Run(r.raw, Some(Checkpoint(r.read.value.rawCount, out)), None, r.compactions + 1,
                if r.compactions == 0 then r.read.value.rawCount else r.first,
                r.madeUp + (if r.checkpoint.Some? && 0 <= r.checkpoint.value.rawCount <= r.read.value.rawCount <= |r.raw|
                            then Synthetic(Q.NormalMessages(r.raw[r.checkpoint.value.rawCount..r.read.value.rawCount], t.u), t.est)
                            else 0))
  {
    hide Q.Prepare, Q.NormalMessages, PolicyOutput, Synthetic;
  }

  // ----- The run -----

  lemma {:induction false} Appends(r: Run, m: Message, t: Setting)
    ensures Enabled(r, Appended(m), t) && Do(r, Appended(m), t) == r.(raw := r.raw + [m])
  {
  }

  lemma {:induction false} Reads(r: Run, v: View, t: Setting)
    requires MessageView(r.raw, r.checkpoint) == Ok(v)
    ensures Enabled(r, ReadNow, t) && Do(r, ReadNow, t) == r.(read := Some(v))
  {
  }

  lemma {:induction false} StepOn(r: Run, step: Step, next: Run, steps: seq<Step>, t: Setting)
    requires Enabled(r, step, t) && Do(r, step, t) == next && CanRun(next, steps, t)
    ensures CanRun(r, [step] + steps, t) && After(r, [step] + steps, t) == After(next, steps, t)
  {
    hide Enabled, Do;
    assert ([step] + steps)[1..] == steps;
  }

  lemma {:induction false} Starts()
    ensures START == Run([], None, None, 0, 0, 0)
  {
  }

  lemma {:induction false} FirstReads(raw: seq<Message>)
    ensures MessageView(raw, None) == Ok(View(raw, |raw|, None))
  {
  }

  lemma {:induction false} FirstPart(x: Message, s: Message, m: Message, use: ToolUse, rest: seq<Step>, t: Setting)
    requires Parts(x, s, m, use) && Small(t)
    requires CanRun(Run([x, x], Some(Checkpoint(2, [s, x])), None, 1, 2, 0), rest, t)
    ensures var steps := [Appended(x)] + ([Appended(x)] + ([ReadNow] + ([Compact([s, x])] + rest)));
            && CanRun(START, steps, t)
            && After(START, steps, t) == After(Run([x, x], Some(Checkpoint(2, [s, x])), None, 1, 2, 0), rest, t)
  {
    hide *;
    Roles(x, s, m, use);
    var v := View([x, x], 2, None);
    var r2 := Run([x, x], None, None, 0, 0, 0);
    FirstReads([x, x]);
    Starts();
    FirstOutcome(x, s, m, use, t);
    UsersPrepared([x, x], t);
    UsersPrepared([s, x], t);
    Compacts(r2.(read := Some(v)), [s, x], [x, x], t);
    StepOn(r2.(read := Some(v)), Compact([s, x]), Run([x, x], Some(Checkpoint(2, [s, x])), None, 1, 2, 0), rest, t);
    Reads(r2, v, t);
    StepOn(r2, ReadNow, r2.(read := Some(v)), [Compact([s, x])] + rest, t);
    Appends(r2.(raw := [x]), x, t);
    assert [x] + [x] == [x, x] && [] + [x] == [x];
    StepOn(r2.(raw := [x]), Appended(x), r2, [ReadNow] + ([Compact([s, x])] + rest), t);
    Appends(START, x, t);
    StepOn(START, Appended(x), r2.(raw := [x]), [Appended(x)] + ([ReadNow] + ([Compact([s, x])] + rest)), t);
  }

  lemma {:induction false} Rereads(x: Message, s: Message, m: Message)
    ensures MessageView([x, x, m], Some(Checkpoint(2, [s, x]))) == Ok(View([s, x, m], 3, Some(Checkpoint(2, [s, x]))))
  {
    assert [x, x, m][2..] == [m] && [s, x] + [m] == [s, x, m];
  }

  lemma {:induction false} SecondCompacts(x: Message, s: Message, m: Message, use: ToolUse, t: Setting)
    requires Parts(x, s, m, use) && Small(t)
    ensures var c := Some(Checkpoint(2, [s, x]));
            var r6 := Run([x, x, m], c, Some(View([s, x, m], 3, c)), 1, 2, 0);
            Enabled(r6, Compact([s]), t) && Do(r6, Compact([s]), t) == Run([x, x, m], Some(Checkpoint(3, [s])), None, 2, 2, 3)
  {
    hide *;
    Roles(x, s, m, use);
    Weights(x, s, m, R.Interrupted(use), t);
    var c := Some(Checkpoint(2, [s, x]));
    ViewPrepared(x, s, m, use, t);
    SecondOutcome(x, s, m, use, t);
    UsersPrepared([s], t);
    CallRepaired(m, use, t);
    CallIsNormal(m, use, t.u);
    assert [x, x, m][2..3] == [m];
    Compacts(Run([x, x, m], c, Some(View([s, x, m], 3, c)), 1, 2, 0), [s], [s, x, m, R.Interrupted(use)], t);
  }

  lemma {:induction false} NoMoreSteps(r: Run, t: Setting)
    ensures CanRun(r, [], t) && After(r, [], t) == r
  {
  }

  lemma {:induction false} SecondPart(x: Message, s: Message, m: Message, use: ToolUse, t: Setting)
    requires Parts(x, s, m, use) && Small(t)
    ensures var r4 := Run([x, x], Some(Checkpoint(2, [s, x])), None, 1, 2, 0);
            var steps := [Appended(m)] + ([ReadNow] + ([Compact([s])] + []));
            CanRun(r4, steps, t) && After(r4, steps, t) == Run([x, x, m], Some(Checkpoint(3, [s])), None, 2, 2, 3)
  {
    hide *;
    var c := Some(Checkpoint(2, [s, x]));
    var r4, r5 := Run([x, x], c, None, 1, 2, 0), Run([x, x, m], c, None, 1, 2, 0);
    var v := View([s, x, m], 3, c);
    var r6, r7 := Run([x, x, m], c, Some(v), 1, 2, 0), Run([x, x, m], Some(Checkpoint(3, [s])), None, 2, 2, 3);
    NoMoreSteps(r7, t);
    SecondCompacts(x, s, m, use, t);
    StepOn(r6, Compact([s]), r7, [], t);
    Rereads(x, s, m);
    Reads(r5, v, t);
    StepOn(r5, ReadNow, r6, [Compact([s])] + [], t);
    Appends(r4, m, t);
    assert [x, x] + [m] == [x, x, m];
    StepOn(r4, Appended(m), r5, [ReadNow] + ([Compact([s])] + []), t);
  }

  /**
    Two compactions, and less appended after the first than the gap: the result made up for the tool use
    that was never answered pays for the second.
   */
  lemma {:induction false} CompactsTwice(x: Message, s: Message, m: Message, use: ToolUse, t: Setting)
    requires Parts(x, s, m, use) && Small(t)
    ensures exists steps ::
              && CanRun(START, steps, t)
              && var r := After(START, steps, t);
              && r.compactions == 2 && r.first == 2 && r.raw == [x, x, m] && r.madeUp == 3
              && Tokens(Q.NormalMessages(r.raw[r.first..], t.u), t.est) < (r.compactions - 1) * Gap(t.p)
  {
    hide *;
    Roles(x, s, m, use);
    Budgets(t);
    Weights(x, s, m, R.Interrupted(use), t);
    assert [x, x, m][2..] == [m];
    var rest := [Appended(m)] + ([ReadNow] + ([Compact([s])] + []));
    SecondPart(x, s, m, use, t);
    FirstPart(x, s, m, use, rest, t);
    CallIsNormal(m, use, t.u);
    OneMessage(m, t.est);
    var steps := [Appended(x)] + ([Appended(x)] + ([ReadNow] + ([Compact([s, x])] + rest)));
    assert CanRun(START, steps, t);
  }
}
