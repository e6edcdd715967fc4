/**
  Runs of an agent over one session: reading the transcript view and preparing it for the model,
  compacting it when it is above the trigger, saving the prepared outcome as a checkpoint, and messages
  being appended at any time in between (agent.go, runLoop; contextwindow/policy.go; session/compaction.go).
 */
module CompactionRuns {
  import opened Wrappers
  import opened Transcript
  import opened ContextWindow
  import opened Sessions
  import opened RepairCost
  import S = StreamText
  import C = AssistantContent
  import R = TranscriptRepair
  import Q = Requests

  /**
    read is the view read last and not yet compacted. The rest is kept for the account: how many
    checkpoints were saved, how many raw messages the first one covered, and the tokens of the results
    that preparation made up since then.
   */
  datatype Run = Run(
    raw: seq<Message>, checkpoint: Option<Checkpoint>, read: Option<View>, compactions: nat, first: nat, madeUp: int)

  datatype Step = Appended(message: Message) | ReadNow | Compact(out: seq<Message>)

  const START := Run([], None, None, 0, 0, 0)

  /** The policy, the estimator and the Unicode tables. */
  datatype Setting = Setting(p: SummarizingBudget, est: Estimator, u: S.Unicode)

  /** The outcome of summaryMessage. */
  ghost predicate SummaryMade(t: Setting, m: Message) {
    && m.isSummary && m.role == t.p.role && m.result.None? && |m.content| == 1 && m.content[0].Text?
    && t.est(m) <= SummaryBudget(t.p)
  }

  /**
    The estimator is not negative. With summaries in the assistant role, whose text is normalised, it
    must also not find normalised messages larger.
   */
  ghost predicate Measures(t: Setting) {
    NeverNegative(t.est) && (t.p.role.Assistant? ==> forall m: Message :: t.est(Q.NormalMessage(m, t.u)) <= t.est(m))
  }

  /** What SummarizingBudget makes of a view, with no message but summaries above the recent budget. */
  ghost predicate PolicyOutput(t: Setting, view: seq<Message>, out: seq<Message>) {
    && Tokens(view, t.est) > Trigger(t.p) && NoLargeMessage(view, RecentBudget(t.p), t.est)
    && out != [] && SummaryMade(t, out[0])
    && exists summarized :: Compacted(view, RecentBudget(t.p), t.est, out[1..], summarized)
  }

  ghost predicate Enabled(s: Run, step: Step, t: Setting) {
    match step
    case Appended(_) => true
    case ReadNow => MessageView(s.raw, s.checkpoint).Ok?
    case Compact(out) => s.read.Some? && PolicyOutput(t, Q.Prepare(s.read.value.messages, t.u), out)
  }

  /** The tokens of the results made up for a compaction: for the messages since the last checkpoint, and for the outcome. */
  function NewlyMadeUp(s: Run, out: seq<Message>, t: Setting): int
    requires s.read.Some?
  {
    var n := s.read.value.rawCount;
    (if s.checkpoint.Some? && 0 <= s.checkpoint.value.rawCount <= n <= |s.raw|
     then Synthetic(Q.NormalMessages(s.raw[s.checkpoint.value.rawCount..n], t.u), t.est) else 0)
    + Synthetic(Q.NormalMessages(out, t.u), t.est)
  }

  function Do(s: Run, step: Step, t: Setting): Run {
    match step
    case Appended(m) => s.(raw := s.raw + [m])
    case ReadNow =>
      (match MessageView(s.raw, s.checkpoint)
       case Err(_) => s
       case Ok(v) => s.(read := Some(v)))
    case Compact(out) =>
      if s.read.None? then s
      else s.(checkpoint := Some(Checkpoint(s.read.value.rawCount, Q.Prepare(out, t.u))),
              read := None,
              compactions := s.compactions + 1,
              first := if s.compactions == 0 then s.read.value.rawCount else s.first,
              madeUp := s.madeUp + NewlyMadeUp(s, out, t))
  }

  ghost predicate CanRun(s: Run, steps: seq<Step>, t: Setting)
    decreases |steps|
  {
    steps == [] || (Enabled(s, steps[0], t) && CanRun(Do(s, steps[0], t), steps[1..], t))
  }

  function After(s: Run, steps: seq<Step>, t: Setting): Run
    decreases |steps|
  {
    if steps == [] then s else After(Do(s, steps[0], t), steps[1..], t)
  }

  // ----- The account -----

  function Gap(p: SummarizingBudget): int {
    Trigger(p) - p.maxTokens + 1
  }

  /** Tokens of the raw messages from index a up to index b, as requests carry them */
  function Between(s: Run, a: nat, b: nat, t: Setting): int
    requires a <= b <= |s.raw|
  {
    Tokens(Q.NormalMessages(s.raw[a..b], t.u), t.est)
  }

  /** The checkpoint holds prepared messages, and the account covers what they take above MaxTokens. */
  ghost predicate CheckpointInv(s: Run, c: Checkpoint, t: Setting) {
    && s.first <= c.rawCount <= |s.raw|
    && Served(c.messages) && Q.NormalMessages(c.messages, t.u) == c.messages
    && var account := Between(s, s.first, c.rawCount, t) + s.madeUp - (s.compactions - 1) * Gap(t.p);
    && account >= 0 && account >= Tokens(c.messages, t.est) - t.p.maxTokens
  }

  ghost predicate Inv(s: Run, t: Setting) {
    && (s.checkpoint.None? <==> s.compactions == 0) && (s.checkpoint.None? ==> s.madeUp == 0)
    && (s.checkpoint.Some? ==> CheckpointInv(s, s.checkpoint.value, t))
    // the view read last is the one the current checkpoint gave then
    && (s.read.Some? ==>
          && s.read.value.rawCount <= |s.raw|
          && MessageView(s.raw[..s.read.value.rawCount], s.checkpoint) == Ok(s.read.value))
  }

  lemma {:induction false} BetweenSplit(s: Run, a: nat, b: nat, c: nat, t: Setting)
    requires a <= b <= c <= |s.raw|
    ensures Between(s, a, c, t) == Between(s, a, b, t) + Between(s, b, c, t)
  {
    hide Tokens, Q.NormalMessages;
    assert s.raw[a..c] == s.raw[a..b] + s.raw[b..c];
    Q.NormalConcat(s.raw[a..b], s.raw[b..c], t.u);
    TokensConcat(Q.NormalMessages(s.raw[a..b], t.u), Q.NormalMessages(s.raw[b..c], t.u), t.est);
  }

  lemma {:induction false} BetweenNonNegative(s: Run, a: nat, b: nat, t: Setting)
    requires a <= b <= |s.raw| && NeverNegative(t.est)
    ensures Between(s, a, b, t) >= 0
  {
    hide Tokens, Q.NormalMessages;
    TokensNonNegative(Q.NormalMessages(s.raw[a..b], t.u), t.est);
  }

  // ----- What a compaction saves -----

  lemma {:induction false} NonSummariesAreFrom(ms: seq<Message>)
    ensures forall m :: m in NonSummaries(ms) ==> m in ms
  {
    if ms != [] {
      NonSummariesAreFrom(ms[1..]);
      assert ms == [ms[0]] + ms[1..];
    }
  }

  lemma {:induction false} RecentIsNormal(ms: seq<Message>, recent: seq<Message>, max: int, est: Estimator, u: S.Unicode)
    requires Q.NormalMessages(ms, u) == ms
    requires exists summarized :: Compacted(ms, max, est, recent, summarized)
    ensures Q.NormalMessages(recent, u) == recent
  {
    var summarized :| Compacted(ms, max, est, recent, summarized);
    hide Compacted, Q.NormalMessages, NonSummaries, Summaries, NewestSuffix, C.Normalize;
    var _, start := SplitPoint(ms, max, est, recent, summarized);
    NonSummariesAreFrom(ms[start..]);
    forall i | 0 <= i < |recent|
      ensures Q.NormalMessage(recent[i], u) == recent[i]
    {
      assert recent[i] in recent;
      var k :| 0 <= k < |ms| && ms[k] == recent[i];
      Q.NormalAt(ms, u, k);
    }
    Q.NormalFixed(recent, u);
  }

  lemma {:induction false} HeadedTokens(head: Message, recent: seq<Message>, t: Setting)
    requires Q.NormalMessages(recent, t.u) == recent
    ensures Tokens(Q.NormalMessages([head] + recent, t.u), t.est) == t.est(Q.NormalMessage(head, t.u)) + Tokens(recent, t.est)
    ensures Tokens([head] + recent, t.est) == t.est(head) + Tokens(recent, t.est)
  {
    hide Tokens, Q.NormalMessages, Q.NormalMessage;
    Q.NormalConcat([head], recent, t.u);
    Q.NormalAt([head], t.u, 0);
    assert Q.NormalMessages([head], t.u) == [Q.NormalMessage(head, t.u)];
    TokensConcat([head], recent, t.est);
    TokensConcat([Q.NormalMessage(head, t.u)], recent, t.est);
    OneMessage(head, t.est);
    OneMessage(Q.NormalMessage(head, t.u), t.est);
  }

  lemma {:induction false} HeadShrinks(m: Message, t: Setting)
    requires Measures(t) && m.role == t.p.role
    ensures t.est(Q.NormalMessage(m, t.u)) <= t.est(m)
  {
    hide C.Normalize;
  }

  lemma {:induction false} OutputParts(t: Setting, view: seq<Message>, out: seq<Message>) returns (summarized: seq<Message>)
    requires PolicyOutput(t, view, out)
    ensures out != [] && out == [out[0]] + out[1..] && out[0].isSummary && out[0].role == t.p.role && t.est(out[0]) <= SummaryBudget(t.p)
    ensures NoLargeMessage(view, RecentBudget(t.p), t.est)
    ensures Compacted(view, RecentBudget(t.p), t.est, out[1..], summarized)
  {
    hide Compacted, RecentBudget, SummaryBudget, Tokens, NoLargeMessage, Trigger;
    summarized :| Compacted(view, RecentBudget(t.p), t.est, out[1..], summarized);
  }

  lemma {:induction false} AllNonNegative(ms: seq<Message>, t: Setting)
    requires Measures(t)
    ensures NeverNegative(t.est) && NonNegative(ms, t.est)
  {
  }

  /** The outcome, prepared, is within MaxTokens but for results made up. */
  lemma {:induction false} OutputFits(t: Setting, view: seq<Message>, out: seq<Message>)
    requires t.p.maxTokens >= 2 && Measures(t) && PolicyOutput(t, view, out) && Q.NormalMessages(view, t.u) == view
    ensures Tokens(Q.Prepare(out, t.u), t.est) <= t.p.maxTokens + Synthetic(Q.NormalMessages(out, t.u), t.est)
  {
    hide *;
    var summarized := OutputParts(t, view, out);
    AllNonNegative(view, t);
    RecentIsNormal(view, out[1..], RecentBudget(t.p), t.est, t.u);
    HeadShrinks(out[0], t);
    CompactionMeetsBudget(t.p, view, t.est, out, summarized);
    HeadedTokens(out[0], out[1..], t);
    PreparedTokens(out, t);
  }

  lemma {:induction false} PreparedTokens(out: seq<Message>, t: Setting)
    requires NeverNegative(t.est)
    ensures Tokens(Q.Prepare(out, t.u), t.est) <=
            Tokens(Q.NormalMessages(out, t.u), t.est) + Synthetic(Q.NormalMessages(out, t.u), t.est)
  {
    hide Tokens, Synthetic, Q.NormalMessages, R.Repair;
    RepairedTokens(Q.NormalMessages(out, t.u), t.est);
  }

  /** What was appended since the last checkpoint, with the results made up for it, covers the way to the trigger. */
  lemma {:induction false} AppendedCovers(s: Run, t: Setting)
    requires NeverNegative(t.est) && Inv(s, t) && s.checkpoint.Some? && s.read.Some?
    requires Tokens(Q.Prepare(s.read.value.messages, t.u), t.est) > Trigger(t.p)
    ensures var c, n := s.checkpoint.value, s.read.value.rawCount;
            && 0 <= c.rawCount <= n <= |s.raw|
            && Tokens(c.messages, t.est) + Between(s, c.rawCount, n, t)
               + Synthetic(Q.NormalMessages(s.raw[c.rawCount..n], t.u), t.est) > Trigger(t.p)
  {
    hide Tokens, Synthetic, Q.NormalMessages, R.Repair, Served;
    var c, n := s.checkpoint.value, s.read.value.rawCount;
    assert s.raw[..n][c.rawCount..] == s.raw[c.rawCount..n];
    Q.NormalConcat(c.messages, s.raw[c.rawCount..n], t.u);
    ContinuedTokens(c.messages, Q.NormalMessages(s.raw[c.rawCount..n], t.u), t.est);
  }

  lemma {:induction false} SavedIsServed(out: seq<Message>, u: S.Unicode)
    ensures Served(Q.Prepare(out, u)) && Q.NormalMessages(Q.Prepare(out, u), u) == Q.Prepare(out, u)
  {
    hide Q.NormalMessages, Served, R.Repair;
    RepairedIsServed(Q.NormalMessages(out, u));
    Q.PreparedIsNormal(out, u);
  }

  lemma {:induction false} OneMore(k: int, g: int)
    ensures k * g == (k - 1) * g + g
  {
  }

  /** One compaction more: what is paid in exceeds what is charged. */
  lemma {:induction false} AccountCovers(
      account: int, saved: int, max: int, trigger: int, appended: int, madeUp: int, owed: int, next: int)
    requires account >= 0 && account >= saved - max && saved + appended + madeUp > trigger && next <= max + owed && owed >= 0
    requires trigger >= max && appended >= 0 && madeUp >= 0
    ensures var account' := account + appended + madeUp + owed - (trigger - max + 1);
            account' >= 0 && account' >= next - max
  {
  }

  /** The figures of a compaction. */
  lemma {:induction false} CompactFigures(view: seq<Message>, out: seq<Message>, t: Setting)
    requires t.p.maxTokens >= 2 && Measures(t) && PolicyOutput(t, Q.Prepare(view, t.u), out)
    ensures Tokens(Q.Prepare(view, t.u), t.est) > Trigger(t.p) >= t.p.maxTokens
    ensures Tokens(Q.Prepare(out, t.u), t.est) <= t.p.maxTokens + Synthetic(Q.NormalMessages(out, t.u), t.est)
    ensures Synthetic(Q.NormalMessages(out, t.u), t.est) >= 0
  {
    hide Tokens, Q.Prepare, Q.NormalMessages, Synthetic, RecentBudget, NoLargeMessage, SummaryMade, Compacted;
    Q.PreparedIsNormal(view, t.u);
    OutputFits(t, Q.Prepare(view, t.u), out);
    AllNonNegative(out, t);
    SyntheticNonNegative(Q.NormalMessages(out, t.u), t.est);
  }

  lemma {:induction false} FirstSaved(s: Run, out: seq<Message>, t: Setting)
    requires t.p.maxTokens >= 2 && Measures(t) && Inv(s, t) && Enabled(s, Compact(out), t) && s.checkpoint.None?
    ensures var s' := Do(s, Compact(out), t); CheckpointInv(s', s'.checkpoint.value, t)
  {
    hide Tokens, PolicyOutput, Served, Q.Prepare, Q.NormalMessages, Synthetic, MessageView, Measures, Gap, Trigger;
    CompactFigures(s.read.value.messages, out, t);
    SavedIsServed(out, t.u);
    AllNonNegative(out, t);
    BetweenNonNegative(s, s.read.value.rawCount, s.read.value.rawCount, t);
    hide Between;
  }

  lemma {:induction false} NextSaved(s: Run, out: seq<Message>, t: Setting)
    requires t.p.maxTokens >= 2 && Measures(t) && Inv(s, t) && Enabled(s, Compact(out), t) && s.checkpoint.Some?
    ensures var s' := Do(s, Compact(out), t); CheckpointInv(s', s'.checkpoint.value, t)
  {
    hide Tokens, PolicyOutput, Served, Q.Prepare, Q.NormalMessages, Synthetic, MessageView, Measures, Trigger;
    CompactFigures(s.read.value.messages, out, t);
    SavedIsServed(out, t.u);
    AllNonNegative(out, t);
    var c, n := s.checkpoint.value, s.read.value.rawCount;
    AppendedCovers(s, t);
    BetweenSplit(s, s.first, c.rawCount, n, t);
    BetweenNonNegative(s, c.rawCount, n, t);
    OneMore(s.compactions, Gap(t.p));
    SyntheticNonNegative(Q.NormalMessages(s.raw[c.rawCount..n], t.u), t.est);
    AccountCovers(Between(s, s.first, c.rawCount, t) + s.madeUp - (s.compactions - 1) * Gap(t.p), Tokens(c.messages, t.est),
                  t.p.maxTokens, Trigger(t.p), Between(s, c.rawCount, n, t),
                  Synthetic(Q.NormalMessages(s.raw[c.rawCount..n], t.u), t.est),
                  Synthetic(Q.NormalMessages(out, t.u), t.est), Tokens(Q.Prepare(out, t.u), t.est));
    hide Between;
  }

  lemma {:induction false} CompactKeeps(s: Run, out: seq<Message>, t: Setting)
    requires t.p.maxTokens >= 2 && Measures(t) && Inv(s, t) && Enabled(s, Compact(out), t)
    ensures Inv(Do(s, Compact(out), t), t)
  {
    hide CheckpointInv, NewlyMadeUp, Q.Prepare, PolicyOutput, Measures, MessageView;
    if s.checkpoint.None? {
      FirstSaved(s, out, t);
    } else {
      NextSaved(s, out, t);
    }
  }

  lemma {:induction false} AppendKeeps(s: Run, m: Message, t: Setting)
    requires Inv(s, t)
    ensures Inv(Do(s, Appended(m), t), t)
  {
    hide Tokens, Gap, Served, Q.NormalMessages;
    var s' := Do(s, Appended(m), t);
    if s.checkpoint.Some? {
      assert s'.raw[s.first..s.checkpoint.value.rawCount] == s.raw[s.first..s.checkpoint.value.rawCount];
    }
    if s.read.Some? {
      assert s'.raw[..s.read.value.rawCount] == s.raw[..s.read.value.rawCount];
    }
  }

  lemma {:induction false} ReadKeeps(s: Run, t: Setting)
    requires Inv(s, t)
    ensures Inv(Do(s, ReadNow, t), t)
  {
    hide Tokens, Gap, Served, Q.NormalMessages;
    assert s.raw[..|s.raw|] == s.raw;
  }

  lemma {:induction false} RunKeeps(s: Run, steps: seq<Step>, t: Setting)
    requires t.p.maxTokens >= 2 && Measures(t) && Inv(s, t) && CanRun(s, steps, t)
    ensures Inv(After(s, steps, t), t)
    decreases |steps|
  {
    hide Inv, Do, Enabled;
    if steps != [] {
      match steps[0] {
        case Appended(m) => AppendKeeps(s, m, t);
        case ReadNow => ReadKeeps(s, t);
        case Compact(out) => CompactKeeps(s, out, t);
      }
      RunKeeps(Do(s, steps[0], t), steps[1..], t);
    }
  }

  /**
    c compactions take at least (c - 1) · (trigger - MaxTokens + 1) tokens: of messages appended after
    the first one was read, and of results that preparation made up for interrupted tool uses.
   */
  lemma {:induction false} CompactionsArePaidFor(steps: seq<Step>, t: Setting)
    requires t.p.maxTokens >= 2 && Measures(t) && CanRun(START, steps, t)
    ensures var s := After(START, steps, t);
            s.compactions > 0 ==>
              && s.first <= |s.raw|
              && Tokens(Q.NormalMessages(s.raw[s.first..], t.u), t.est) + s.madeUp >= (s.compactions - 1) * Gap(t.p)
  {
    assert Inv(START, t);
    RunKeeps(START, steps, t);
    var s := After(START, steps, t);
    AllNonNegative([], t);
    hide After, Gap, Tokens, MessageView, Q.NormalMessages, Served, CanRun;
    if s.compactions > 0 {
      var c := s.checkpoint.value.rawCount;
      BetweenSplit(s, s.first, c, |s.raw|, t);
      BetweenNonNegative(s, c, |s.raw|, t);
      assert s.raw[s.first..|s.raw|] == s.raw[s.first..];
    }
  }

  // ----- Runs in which nothing is made up -----

  /** Views are read when every use is answered, as at the start of each turn, and no tool result is marked as a summary. */
  ghost predicate Orderly(s: Run, steps: seq<Step>, t: Setting)
    decreases |steps|
  {
    steps == [] ||
    (&& (steps[0].Appended? && steps[0].message.isSummary ==> steps[0].message.result.None?)
     && (steps[0].ReadNow? ==> Paired(s.raw))
     && Orderly(Do(s, steps[0], t), steps[1..], t))
  }

  ghost predicate OrderInv(s: Run) {
    && s.madeUp == 0 && PlainSummaries(s.raw)
    && (s.checkpoint.Some? ==>
          var c := s.checkpoint.value;
          0 <= c.rawCount <= |s.raw| && Paired(s.raw[..c.rawCount]) && PlainSummaries(c.messages))
    && (s.read.Some? ==>
          var n := s.read.value.rawCount;
          n <= |s.raw| && Paired(s.raw[..n]) && MessageView(s.raw[..n], s.checkpoint) == Ok(s.read.value))
  }

  lemma {:induction false} ViewSummaries(s: Run)
    requires OrderInv(s) && s.read.Some?
    ensures PlainSummaries(s.read.value.messages)
  {
    hide Paired;
  }

  lemma {:induction false} SegmentIsPaired(s: Run)
    requires OrderInv(s) && s.read.Some? && s.checkpoint.Some?
    ensures s.checkpoint.value.rawCount <= s.read.value.rawCount
    ensures Paired(s.raw[s.checkpoint.value.rawCount..s.read.value.rawCount])
  {
    hide Paired, PlainSummaries;
    var c, n := s.checkpoint.value.rawCount, s.read.value.rawCount;
    assert s.raw[..n] == s.raw[..c] + s.raw[c..n];
    PairedSuffix(s.raw[..c], s.raw[c..n]);
  }

  lemma {:induction false} ThinnedSummaries(ms: seq<Message>, start: nat)
    requires PlainSummaries(ms) && start <= |ms|
    ensures PlainSummaries(ms[start..])
  {
  }

  lemma {:induction false} RecentIsServed(view: seq<Message>, recent: seq<Message>, summarized: seq<Message>, max: int, est: Estimator)
    requires Served(view) && PlainSummaries(view) && Compacted(view, max, est, recent, summarized)
    ensures Served(recent)
  {
    hide *;
    var _, start := SplitPoint(view, max, est, recent, summarized);
    ServedSuffix(view, start);
    ThinnedSummaries(view, start);
    ThinnedIsServed(view[start..]);
  }

  lemma {:induction false} NoUses(m: Message, u: S.Unicode)
    requires |m.content| == 1 && m.content[0].Text?
    ensures UsesOf(Q.NormalMessage(m, u)) == []
  {
    hide C.Normalize;
    Q.NormalMessageKeeps(m, u);
    assert m.content[..0] == [] && Uses([]) == [];
    assert Uses(m.content) == Uses(m.content[..0]) + [];
  }

  lemma {:induction false} MadeIsText(t: Setting, view: seq<Message>, out: seq<Message>)
    requires PolicyOutput(t, view, out)
    ensures out != [] && |out[0].content| == 1 && out[0].content[0].Text? && out[0].result.None?
  {
    hide Compacted, NoLargeMessage, Tokens;
  }

  /** Nothing is made up for the outcome of a policy on served messages. */
  lemma {:induction false} OutcomeCostsNothing(t: Setting, view: seq<Message>, out: seq<Message>)
    requires PolicyOutput(t, view, out) && Served(view) && PlainSummaries(view) && Q.NormalMessages(view, t.u) == view
    ensures Synthetic(Q.NormalMessages(out, t.u), t.est) == 0
  {
    hide *;
    var summarized := OutputParts(t, view, out);
    MadeIsText(t, view, out);
    RecentIsNormal(view, out[1..], RecentBudget(t.p), t.est, t.u);
    RecentIsServed(view, out[1..], summarized, RecentBudget(t.p), t.est);
    NormalHead(out[0], out[1..], t.u);
    NoUses(out[0], t.u);
    HeadedIsServed(Q.NormalMessage(out[0], t.u), out[1..]);
    ServedCostsNothing(Q.NormalMessages(out, t.u), t.est);
  }

  lemma {:induction false} NormalHead(head: Message, recent: seq<Message>, u: S.Unicode)
    requires Q.NormalMessages(recent, u) == recent
    ensures Q.NormalMessages([head] + recent, u) == [Q.NormalMessage(head, u)] + recent
  {
    hide Q.NormalMessages, Q.NormalMessage;
    Q.NormalConcat([head], recent, u);
    Q.NormalAt([head], u, 0);
    assert Q.NormalMessages([head], u) == [Q.NormalMessage(head, u)];
  }

  lemma {:induction false} OutcomeSummaries(t: Setting, view: seq<Message>, out: seq<Message>)
    requires PolicyOutput(t, view, out) && PlainSummaries(view)
    ensures PlainSummaries(out)
  {
    var summarized := OutputParts(t, view, out);
    MadeIsText(t, view, out);
    hide PolicyOutput, Compacted, RecentBudget, SummaryBudget, NoLargeMessage;
    CompactionConserves(view, RecentBudget(t.p), t.est, out[1..], summarized);
    forall i | 0 < i < |out|
      ensures !out[i].isSummary
    {
      assert out[i] == out[1..][i - 1] && out[1..][i - 1] in out[1..];
    }
  }

  lemma {:induction false} OrderlyCompact(s: Run, out: seq<Message>, t: Setting)
    requires OrderInv(s) && Enabled(s, Compact(out), t)
    ensures OrderInv(Do(s, Compact(out), t))
  {
    hide Paired, PlainSummaries, PolicyOutput, Q.Prepare, Synthetic, Q.NormalMessages, Served;
    var messages := s.read.value.messages;
    var view := Q.Prepare(messages, t.u);
    ViewSummaries(s);
    PreparedSummaries(messages, t.u);
    SavedIsServed(messages, t.u);
    OutcomeCostsNothing(t, view, out);
    OutcomeSummaries(t, view, out);
    PreparedSummaries(out, t.u);
    if s.checkpoint.Some? {
      SegmentIsPaired(s);
      var segment := s.raw[s.checkpoint.value.rawCount..s.read.value.rawCount];
      NormalIsServed(segment, t.u);
      ServedCostsNothing(Q.NormalMessages(segment, t.u), t.est);
    }
  }

  lemma {:induction false} OrderlyAppend(s: Run, m: Message, t: Setting)
    requires OrderInv(s) && (m.isSummary ==> m.result.None?)
    ensures OrderInv(Do(s, Appended(m), t))
  {
    hide Paired;
    var s' := Do(s, Appended(m), t);
    if s.checkpoint.Some? {
      assert s'.raw[..s.checkpoint.value.rawCount] == s.raw[..s.checkpoint.value.rawCount];
    }
    if s.read.Some? {
      assert s'.raw[..s.read.value.rawCount] == s.raw[..s.read.value.rawCount];
    }
  }

  lemma {:induction false} OrderlyRun(s: Run, steps: seq<Step>, t: Setting)
    requires OrderInv(s) && CanRun(s, steps, t) && Orderly(s, steps, t)
    ensures OrderInv(After(s, steps, t))
    decreases |steps|
  {
    if steps != [] {
      hide Enabled, Paired;
      match steps[0] {
        case Appended(m) => OrderlyAppend(s, m, t);
        case ReadNow => assert s.raw[..|s.raw|] == s.raw;
        case Compact(out) => OrderlyCompact(s, out, t);
      }
      hide OrderInv, Do;
      OrderlyRun(Do(s, steps[0], t), steps[1..], t);
    }
  }

  /**
    In a run whose views are read between turns, c compactions take at least
    (c - 1) · (trigger - MaxTokens + 1) tokens of messages appended after the first one was read.
   */
  lemma {:induction false} OrderlyCompactionsArePaidFor(steps: seq<Step>, t: Setting)
    requires t.p.maxTokens >= 2 && Measures(t) && CanRun(START, steps, t) && Orderly(START, steps, t)
    ensures var s := After(START, steps, t);
            s.compactions > 0 ==>
              && s.first <= |s.raw|
              && Tokens(Q.NormalMessages(s.raw[s.first..], t.u), t.est) >= (s.compactions - 1) * Gap(t.p)
  {
    assert OrderInv(START);
    OrderlyRun(START, steps, t);
    CompactionsArePaidFor(steps, t);
    hide After, CanRun, Orderly, Tokens, Gap, Q.NormalMessages;
  }

  // ----- Nothing appended during a compaction is lost -----

  function AppendAll(s: Run, ms: seq<Message>): Run {
    s.(raw := s.raw + ms)
  }

  /** Messages appended between reading the view and saving the checkpoint appear once, in order, in the next view. */
  lemma {:induction false} LateMessagesSurvive(s: Run, late: seq<Message>, out: seq<Message>, t: Setting)
    requires MessageView(s.raw, s.checkpoint).Ok?
    ensures var saved := Do(AppendAll(Do(s, ReadNow, t), late), Compact(out), t);
            MessageView(saved.raw, saved.checkpoint) ==
            Ok(View(Q.Prepare(out, t.u) + late, |s.raw| + |late|, Some(Checkpoint(|s.raw|, Q.Prepare(out, t.u)))))
  {
    hide Q.Prepare, NewlyMadeUp;
    assert (s.raw + late)[|s.raw|..] == late;
  }
}
