/**
  contextwindow/policy.go: choosing what part of a transcript is sent to the model. The estimator and
  the summariser are functions; a summariser that fails returns None.
 */
module ContextWindow {
  import opened Wrappers
  import opened Transcript
  import Strings = Text

  type Estimator = Message -> int

  datatype PolicyError =
    | MaxMessagesNotPositive
    | MaxTokensNotPositive
    | NegativeEstimate
    | SummarizerFailed
    | EmptySummary
    | SummaryCannotFit

  // ----- Token sums -----

  function Tokens(ms: seq<Message>, est: Estimator): int {
    if ms == [] then 0 else est(ms[0]) + Tokens(ms[1..], est)
  }

  predicate NonNegative(ms: seq<Message>, est: Estimator) {
    forall i :: 0 <= i < |ms| ==> est(ms[i]) >= 0
  }

  lemma {:induction false} TokensConcat(a: seq<Message>, b: seq<Message>, est: Estimator)
    ensures Tokens(a + b, est) == Tokens(a, est) + Tokens(b, est)
  {
    if a == [] {
      assert a + b == b;
    } else {
      TokensConcat(a[1..], b, est);
      assert (a + b)[1..] == a[1..] + b;
    }
  }

  lemma {:induction false} TokensNonNegative(ms: seq<Message>, est: Estimator)
    requires NonNegative(ms, est)
    ensures Tokens(ms, est) >= 0
  {
    if ms != [] {
      TokensNonNegative(ms[1..], est);
    }
  }

  lemma {:induction false} SuffixTokens(ms: seq<Message>, i: nat, j: nat, est: Estimator)
    requires NonNegative(ms, est) && i <= j <= |ms|
    ensures Tokens(ms[j..], est) <= Tokens(ms[i..], est)
  {
    assert ms[i..] == ms[i..j] + ms[j..];
    TokensConcat(ms[i..j], ms[j..], est);
    TokensNonNegative(ms[i..j], est);
  }

  /** estimateMessages */
  method EstimateMessages(ms: seq<Message>, est: Estimator) returns (r: Result<int, PolicyError>)
    ensures r.Ok? <==> NonNegative(ms, est)
    ensures r.Ok? ==> r.value == Tokens(ms, est)
  {
    var total := 0;
    for i := 0 to |ms|
      invariant NonNegative(ms[..i], est) && total == Tokens(ms[..i], est)
    {
      if est(ms[i]) < 0 {
        return Err(NegativeEstimate);
      }
      assert ms[..i + 1] == ms[..i] + [ms[i]] && [ms[i]][1..] == [];
      TokensConcat(ms[..i], [ms[i]], est);
      total := total + est(ms[i]);
    }
    assert ms[..|ms|] == ms;
    return Ok(total);
  }

  // ----- The newest suffix within a budget -----

  /** The messages from start on are the newest suffix the budget buys. */
  ghost predicate NewestSuffix(ms: seq<Message>, start: nat, max: int, est: Estimator) {
    && start <= |ms|
    // within the budget, but for one message too large on its own
    && (Tokens(ms[start..], est) <= max || (start < |ms| && Tokens(ms[start + 1..], est) == 0))
    // nothing is taken once the budget is used up
    && (start < |ms| ==> Tokens(ms[start + 1..], est) < max)
    // and the next older message does not fit
    && (start > 0 ==> Tokens(ms[start..], est) >= max
                      || (Tokens(ms[start..], est) > 0 && Tokens(ms[start - 1..], est) > max))
  }

  lemma {:induction false} TokensFrom(ms: seq<Message>, i: nat, est: Estimator)
    requires i < |ms|
    ensures Tokens(ms[i..], est) == est(ms[i]) + Tokens(ms[i + 1..], est)
  {
    assert ms[i..][1..] == ms[i + 1..];
  }

  lemma {:induction false} NewestSuffixNoLater(ms: seq<Message>, a: nat, b: nat, max: int, est: Estimator)
    requires NonNegative(ms, est) && max > 0
    requires NewestSuffix(ms, a, max, est) && NewestSuffix(ms, b, max, est)
    ensures a >= b
  {
    hide Tokens;
    if a < b {
      SuffixTokens(ms, a + 1, b, est);
      SuffixTokens(ms, a, b - 1, est);
    }
  }

  /** There is only one such suffix. */
  lemma {:induction false} NewestSuffixUnique(ms: seq<Message>, a: nat, b: nat, max: int, est: Estimator)
    requires NonNegative(ms, est) && max > 0
    requires NewestSuffix(ms, a, max, est) && NewestSuffix(ms, b, max, est)
    ensures a == b
  {
    NewestSuffixNoLater(ms, a, b, max, est);
    NewestSuffixNoLater(ms, b, a, max, est);
  }

  /** The first message from start on that is not a tool result. */
  function DropLeading(ms: seq<Message>, start: nat): (r: nat)
    requires start <= |ms|
    ensures start <= r <= |ms| && (r < |ms| ==> !ms[r].role.Tool?)
    ensures forall i :: start <= i < r ==> ms[i].role.Tool?
    decreases |ms| - start
  {
    if start < |ms| && ms[start].role.Tool? then DropLeading(ms, start + 1) else start
  }

  /** dropLeadingToolResults */
  method DropLeadingToolResults(ms: seq<Message>, from: nat) returns (start: nat)
    requires from <= |ms|
    ensures start == DropLeading(ms, from)
  {
    start := from;
    while start < |ms| && ms[start].role.Tool?
      invariant from <= start <= |ms|
      invariant DropLeading(ms, start) == DropLeading(ms, from)
    {
      start := start + 1;
    }
  }

  /** newestSuffixStart */
  method NewestSuffixStart(ms: seq<Message>, max: int, est: Estimator)
      returns (r: Result<nat, PolicyError>, ghost taken: nat)
    requires max > 0
    ensures NonNegative(ms, est) ==> r.Ok?
    ensures r.Ok? ==> NewestSuffix(ms, taken, max, est) && r.value == DropLeading(ms, taken)
  {
    var start, total := |ms|, 0;
    assert ms[|ms|..] == [];
    while start > 0
      invariant 0 <= start <= |ms| && total == Tokens(ms[start..], est) && 0 <= total
      invariant start < |ms| ==> Tokens(ms[start + 1..], est) < max
      invariant total < max
    {
      var next := est(ms[start - 1]);
      if next < 0 {
        return Err(NegativeEstimate), 0;
      }
      TokensFrom(ms, start - 1, est);
      if total > 0 && total + next > max {
        break;
      }
      total := total + next;
      start := start - 1;
      if total >= max {
        break;
      }
    }
    taken := start;
    var dropped := DropLeadingToolResults(ms, start);
    return Ok(dropped), taken;
  }

  lemma {:induction false} FittingSuffix(ms: seq<Message>, start: nat, max: int, est: Estimator)
    requires NewestSuffix(ms, start, max, est) && max > 0
    requires forall i :: 0 <= i < |ms| ==> est(ms[i]) <= max
    ensures Tokens(ms[start..], est) <= max
  {
    if start < |ms| {
      TokensFrom(ms, start, est);
    }
  }

  // ----- No tool result stands alone -----

  predicate HasToolUse(m: Message, id: string) {
    exists i :: 0 <= i < |m.content| && m.content[i].Use? && m.content[i].use.id == id
  }

  predicate Calls(m: Message, result: Message) {
    m.role.Assistant? && result.result.Some? && HasToolUse(m, result.result.value.toolUseID)
  }

  /** Each result follows the message that made the call, with only results between; caller is the last message that is no result. */
  predicate OrphanFree(ms: seq<Message>, caller: Option<Message>) {
    ms == [] ||
    (if ms[0].role.Tool?
     then caller.Some? && Calls(caller.value, ms[0]) && OrphanFree(ms[1..], caller)
     else OrphanFree(ms[1..], Some(ms[0])))
  }

  lemma {:induction false} AnyCaller(ms: seq<Message>, a: Option<Message>, b: Option<Message>)
    requires OrphanFree(ms, a) && (ms == [] || !ms[0].role.Tool?)
    ensures OrphanFree(ms, b)
  {
  }

  lemma {:induction false} UncalledStart(ms: seq<Message>, a: Option<Message>)
    requires OrphanFree(ms, a) && (a.None? || !a.value.role.Assistant?)
    ensures ms == [] || !ms[0].role.Tool?
  {
  }

  lemma {:induction false} SuffixOrphanFree(ms: seq<Message>, caller: Option<Message>, start: nat)
    requires OrphanFree(ms, caller) && start <= |ms| && (start < |ms| ==> !ms[start].role.Tool?)
    ensures OrphanFree(ms[start..], None)
  {
    if start == 0 {
      assert ms[0..] == ms;
      AnyCaller(ms, caller, None);
    } else {
      SuffixOrphanFree(ms[1..], if ms[0].role.Tool? then caller else Some(ms[0]), start - 1);
      assert ms[1..][start - 1..] == ms[start..];
    }
  }

  lemma {:induction false} PrefixOrphanFree(ms: seq<Message>, caller: Option<Message>, end: nat)
    requires OrphanFree(ms, caller) && end <= |ms|
    ensures OrphanFree(ms[..end], caller)
  {
    if end > 0 {
      PrefixOrphanFree(ms[1..], if ms[0].role.Tool? then caller else Some(ms[0]), end - 1);
      assert ms[..end][1..] == ms[1..][..end - 1];
    }
  }

  lemma {:induction false} ConcatOrphanFree(a: seq<Message>, b: seq<Message>, caller: Option<Message>)
    requires OrphanFree(a, caller) && OrphanFree(b, None)
    ensures OrphanFree(a + b, caller)
  {
    if a == [] {
      assert a + b == b;
      UncalledStart(b, None);
      AnyCaller(b, None, caller);
    } else {
      ConcatOrphanFree(a[1..], b, if a[0].role.Tool? then caller else Some(a[0]));
      assert (a + b)[1..] == a[1..] + b;
    }
  }

  // ----- RecentMessages and TokenBudget -----

  /** RecentMessages.Apply */
  method RecentMessages(ms: seq<Message>, maxMessages: int) returns (r: Result<seq<Message>, PolicyError>)
    ensures r.Ok? <==> maxMessages > 0
    ensures r.Ok? ==> r.value == if |ms| <= maxMessages then ms else ms[DropLeading(ms, |ms| - maxMessages)..]
    ensures r.Ok? && OrphanFree(ms, None) ==> OrphanFree(r.value, None)
  {
    if maxMessages <= 0 {
      return Err(MaxMessagesNotPositive);
    }
    if |ms| <= maxMessages {
      return Ok(ms);
    }
    var start := DropLeadingToolResults(ms, |ms| - maxMessages);
    if OrphanFree(ms, None) {
      SuffixOrphanFree(ms, None, start);
    }
    return Ok(ms[start..]);
  }

  /** TokenBudget.Apply */
  method TokenBudget(ms: seq<Message>, maxTokens: int, est: Estimator)
      returns (r: Result<seq<Message>, PolicyError>, ghost taken: nat)
    ensures NonNegative(ms, est) ==> (r.Ok? <==> maxTokens > 0)
    ensures r.Ok? ==> NewestSuffix(ms, taken, maxTokens, est) && taken <= |ms| && r.value == ms[DropLeading(ms, taken)..]
    ensures r.Ok? && NonNegative(ms, est) && (forall i :: 0 <= i < |ms| ==> est(ms[i]) <= maxTokens) ==>
              Tokens(r.value, est) <= maxTokens
    ensures r.Ok? && OrphanFree(ms, None) ==> OrphanFree(r.value, None)
  {
    hide Tokens, NewestSuffix, OrphanFree;
    if maxTokens <= 0 {
      return Err(MaxTokensNotPositive), 0;
    }
    var start;
    start, taken := NewestSuffixStart(ms, maxTokens, est);
    if start.Err? {
      return Err(start.error), taken;
    }
    NewestSuffixBound(ms, taken, maxTokens, est);
    if OrphanFree(ms, None) {
      SuffixOrphanFree(ms, None, start.value);
    }
    if NonNegative(ms, est) && (forall i :: 0 <= i < |ms| ==> est(ms[i]) <= maxTokens) {
      FittingSuffix(ms, taken, maxTokens, est);
      SuffixTokens(ms, taken, start.value, est);
    }
    return Ok(ms[start.value..]), taken;
  }

  lemma {:induction false} NewestSuffixBound(ms: seq<Message>, start: nat, max: int, est: Estimator)
    requires NewestSuffix(ms, start, max, est)
    ensures start <= |ms|
  {
  }

  // ----- Summaries -----

  function Summaries(ms: seq<Message>): seq<Message> {
    if ms == [] then [] else (if ms[0].isSummary then [ms[0]] else []) + Summaries(ms[1..])
  }

  function NonSummaries(ms: seq<Message>): seq<Message> {
    if ms == [] then [] else (if ms[0].isSummary then [] else [ms[0]]) + NonSummaries(ms[1..])
  }

  lemma {:induction false} SplitStep(ms: seq<Message>, i: nat, kept: seq<Message>, summaries: seq<Message>)
    requires i < |ms|
    ensures var m := ms[i];
            && kept + NonSummaries(ms[i..]) == (if m.isSummary then kept else kept + [m]) + NonSummaries(ms[i + 1..])
            && summaries + Summaries(ms[i..]) == (if m.isSummary then summaries + [m] else summaries) + Summaries(ms[i + 1..])
  {
    assert ms[i..][0] == ms[i] && ms[i..][1..] == ms[i + 1..];
    var rest, others := NonSummaries(ms[i + 1..]), Summaries(ms[i + 1..]);
    assert [] + rest == rest && [] + others == others;
    assert kept + ([ms[i]] + rest) == (kept + [ms[i]]) + rest;
    assert summaries + ([ms[i]] + others) == (summaries + [ms[i]]) + others;
  }

  lemma {:induction false} NothingToSplit()
    ensures NonSummaries([]) == [] && Summaries([]) == []
  {
  }

  /** splitSummaryMessages */
  method SplitSummaryMessages(ms: seq<Message>) returns (kept: seq<Message>, summaries: seq<Message>)
    ensures kept == NonSummaries(ms) && summaries == Summaries(ms)
  {
    hide NonSummaries, Summaries;
    kept, summaries := [], [];
    assert ms[0..] == ms && [] + NonSummaries(ms) == NonSummaries(ms) && [] + Summaries(ms) == Summaries(ms);
    for i := 0 to |ms|
      invariant kept + NonSummaries(ms[i..]) == NonSummaries(ms)
      invariant summaries + Summaries(ms[i..]) == Summaries(ms)
    {
      SplitStep(ms, i, kept, summaries);
      if ms[i].isSummary {
        summaries := summaries + [ms[i]];
        continue;
      }
      kept := kept + [ms[i]];
    }
    NothingToSplit();
    assert ms[|ms|..] == [] && kept + [] == kept && summaries + [] == summaries;
  }

  lemma {:induction false} SplitCons(m: Message, rest: seq<Message>)
    ensures NonSummaries([m] + rest) == (if m.isSummary then [] else [m]) + NonSummaries(rest)
    ensures Summaries([m] + rest) == (if m.isSummary then [m] else []) + Summaries(rest)
  {
    assert ([m] + rest)[1..] == rest;
  }

  lemma {:induction false} SplitConserves(ms: seq<Message>)
    ensures multiset(ms) == multiset(NonSummaries(ms)) + multiset(Summaries(ms))
    ensures |ms| == |NonSummaries(ms)| + |Summaries(ms)|
    ensures forall m :: m in NonSummaries(ms) ==> !m.isSummary
  {
    hide NonSummaries, Summaries;
    if ms == [] {
      NothingToSplit();
    } else {
      var m, rest := ms[0], ms[1..];
      assert ms == [m] + rest;
      SplitConserves(rest);
      SplitCons(m, rest);
      assert multiset(ms) == multiset{m} + multiset(rest);
    }
  }

  lemma {:induction false} NonSummariesTokens(ms: seq<Message>, est: Estimator)
    requires NonNegative(ms, est)
    ensures Tokens(NonSummaries(ms), est) <= Tokens(ms, est)
  {
    if ms != [] {
      NonSummariesTokens(ms[1..], est);
      var rest := NonSummaries(ms[1..]);
      if ms[0].isSummary {
        assert [] + rest == rest;
        assert est(ms[0]) >= 0;
      } else {
        assert ([ms[0]] + rest)[1..] == rest;
      }
    }
  }

  predicate UserSummaries(ms: seq<Message>) {
    forall i :: 0 <= i < |ms| && ms[i].isSummary ==> ms[i].role.User?
  }

  lemma {:induction false} NonSummariesOrphanFree(ms: seq<Message>, caller: Option<Message>)
    requires OrphanFree(ms, caller) && UserSummaries(ms)
    ensures OrphanFree(NonSummaries(ms), caller)
  {
    if ms != [] {
      var rest := NonSummaries(ms[1..]);
      if ms[0].isSummary {
        assert ms[0].role.User? && [] + rest == rest;
        NonSummariesOrphanFree(ms[1..], Some(ms[0]));
        UncalledStart(rest, Some(ms[0]));
        AnyCaller(rest, Some(ms[0]), caller);
      } else {
        NonSummariesOrphanFree(ms[1..], if ms[0].role.Tool? then caller else Some(ms[0]));
        assert ([ms[0]] + rest)[1..] == rest;
      }
    }
  }

  // ----- Fitting the summary into its budget -----

  function WithText(m: Message, text: string): Message
    requires m.content != [] && m.content[0].Text?
  {
    m.(content := m.content[0 := Text(text)])
  }

  predicate MonotoneIn(m: Message, text: string, est: Estimator)
    requires m.content != [] && m.content[0].Text?
  {
    forall i, j :: 0 <= i <= j <= |text| ==> est(WithText(m, text[..i])) <= est(WithText(m, text[..j]))
  }

  /** The estimator grows with the text and is not negative. */
  ghost predicate Steady(m: Message, text: string, est: Estimator)
    requires m.content != [] && m.content[0].Text?
  {
    MonotoneIn(m, text, est) && forall k :: 0 <= k <= |text| ==> est(WithText(m, text[..k])) >= 0
  }

  /** Some prefix of the text says something and is within the budget. */
  ghost predicate SomePrefixFits(m: Message, text: string, max: int, est: Estimator)
    requires m.content != [] && m.content[0].Text?
  {
    exists k :: 0 <= k <= |text| && est(WithText(m, text[..k])) <= max && Strings.TrimSpace(text[..k]) != ""
  }

  /** The first k characters, as many as fit for a monotone estimator. */
  ghost predicate LongestPrefix(m: Message, text: string, max: int, est: Estimator, k: int, out: Message)
    requires m.content != [] && m.content[0].Text?
  {
    && 0 <= k <= |text| && out == WithText(m, text[..k]) && est(out) <= max
    && (MonotoneIn(m, text, est) ==> forall j :: k < j <= |text| ==> est(WithText(m, text[..j])) > max)
  }

  lemma {:induction false} BlankIff(s: string)
    ensures Strings.TrimSpace(s) == "" <==> forall i :: 0 <= i < |s| ==> Strings.IsSpace(s[i])
  {
    hide Strings.IsSpace;
    var left := Strings.TrimLeft(s);
    assert left != "" ==> left[0] == s[|s| - |left|];
  }

  lemma {:induction false} BlankPrefix(s: string, j: nat, k: nat)
    requires j <= k <= |s| && Strings.TrimSpace(s[..k]) == ""
    ensures Strings.TrimSpace(s[..j]) == ""
  {
    hide Strings.IsSpace, Strings.TrimSpace;
    BlankIff(s[..k]);
    BlankIff(s[..j]);
    assert forall i :: 0 <= i < j ==> s[..j][i] == s[..k][i];
  }

  lemma {:induction false} NoPrefixFits(m: Message, text: string, max: int, est: Estimator, best: int)
    requires m.content != [] && m.content[0].Text? && -1 <= best <= |text|
    requires forall j :: best < j <= |text| ==> est(WithText(m, text[..j])) > max
    requires best >= 0 ==> Strings.TrimSpace(text[..best]) == ""
    ensures !SomePrefixFits(m, text, max, est)
  {
    hide Strings.TrimSpace, WithText;
    forall k | 0 <= k <= |text| && est(WithText(m, text[..k])) <= max
      ensures Strings.TrimSpace(text[..k]) == ""
    {
      BlankPrefix(text, k, best);
    }
  }

  /** truncateTextMessage: the binary search for the longest prefix of the text that fits */
  method TruncateTextMessage(m: Message, max: int, est: Estimator) returns (r: Result<Message, PolicyError>)
    requires m.content != [] ==> m.content[0].Text?
    ensures m.content == [] ==> r == Ok(m)
    ensures m.content != [] && r.Ok? ==> exists k :: LongestPrefix(m, m.content[0].text, max, est, k, r.value)
    ensures m.content != [] && Steady(m, m.content[0].text, est) ==>
              && (r.Ok? <==> SomePrefixFits(m, m.content[0].text, max, est))
              && (r.Err? ==> r.error == SummaryCannotFit)
  {
    hide Strings.TrimSpace, WithText;
    if |m.content| == 0 {
      return Ok(m);
    }
    var text := m.content[0].text;
    var low, high, best := 0, |text|, -1;
    while low <= high
      invariant 0 <= low == best + 1 && low <= |text| + 1 && low <= high + 1 <= |text| + 1
      invariant best >= 0 ==> est(WithText(m, text[..best])) <= max
      invariant MonotoneIn(m, text, est) ==> forall j :: high < j <= |text| ==> est(WithText(m, text[..j])) > max
      decreases high - low
    {
      var mid := low + (high - low) / 2;
      var count := est(WithText(m, text[..mid]));
      if count < 0 {
        return Err(NegativeEstimate);
      }
      if count <= max {
        best := mid;
        low := mid + 1;
      } else {
        high := mid - 1;
      }
    }
    if best < 0 || Strings.TrimSpace(text[..best]) == "" {
      if MonotoneIn(m, text, est) {
        NoPrefixFits(m, text, max, est, best);
      }
      return Err(SummaryCannotFit);
    }
    assert LongestPrefix(m, text, max, est, best, WithText(m, text[..best]));
    return Ok(WithText(m, text[..best]));
  }

  // ----- SummarizingBudget -----

  datatype SummarizingBudget = SummarizingBudget(
    maxTokens: int, triggerTokens: int, maxSummaryTokens: int, role: Role, prefix: string)

  /** triggerTokens */
  function Trigger(p: SummarizingBudget): int {
    if p.triggerTokens > p.maxTokens then p.triggerTokens else p.maxTokens
  }

  /** summaryBudget */
  function SummaryBudget(p: SummarizingBudget): int {
    if p.maxSummaryTokens > 0 then
      if p.maxTokens <= 1 then 1
      else if p.maxSummaryTokens >= p.maxTokens then p.maxTokens - 1
      else p.maxSummaryTokens
    else if p.maxTokens / 4 < 1 then 1
    else p.maxTokens / 4
  }

  function RecentBudget(p: SummarizingBudget): int {
    if p.maxTokens - SummaryBudget(p) < 1 then 1 else p.maxTokens - SummaryBudget(p)
  }

  /** The two budgets share MaxTokens exactly when there are two tokens to share. */
  lemma {:induction false} BudgetsShare(p: SummarizingBudget)
    requires p.maxTokens > 0
    ensures 1 <= SummaryBudget(p) && 1 <= RecentBudget(p)
    ensures SummaryBudget(p) + RecentBudget(p) == p.maxTokens <==> p.maxTokens >= 2
  {
  }

  /** Compaction starts above the trigger, or above MaxTokens if that is more. */
  lemma {:induction false} TriggerIsLarger(p: SummarizingBudget, total: int)
    ensures total <= Trigger(p) <==> total <= p.maxTokens || total <= p.triggerTokens
  {
  }

  /** The summary gets what was asked for while a token is left for the rest, or else a quarter, and at least one token. */
  lemma {:induction false} SummaryShare(p: SummarizingBudget)
    requires p.maxTokens > 0
    ensures p.maxSummaryTokens <= 0 ==>
              4 * (SummaryBudget(p) - 1) < p.maxTokens < 4 * (SummaryBudget(p) + 1) && (SummaryBudget(p) == 1 || 4 * SummaryBudget(p) <= p.maxTokens)
    ensures 0 < p.maxSummaryTokens < p.maxTokens ==> SummaryBudget(p) == p.maxSummaryTokens
    ensures p.maxSummaryTokens >= p.maxTokens >= 2 ==> RecentBudget(p) == 1
  {
  }

  datatype Record = Record(original: nat, sent: nat, summarized: nat, replaced: nat, retained: nat)

  datatype Applied = Applied(messages: seq<Message>, compaction: Option<Record>)

  const DEFAULT_PREFIX := "Previous conversation summary:\n"

  /** The text of a summary message before it is cut. */
  function SummaryText(p: SummarizingBudget, summary: string): string {
    (if p.prefix == "" then DEFAULT_PREFIX else p.prefix) + Strings.TrimSpace(summary)
  }

  function SummaryOf(p: SummarizingBudget, text: string): Message {
    Message("", p.role, [Text(text)], None, true)
  }

  /** The message holds the longest prefix that fits of the policy's prefix and the trimmed summary. */
  ghost predicate CarriesSummary(p: SummarizingBudget, summary: string, max: int, est: Estimator, m: Message) {
    exists text: string, k: int ::
      && text == (if p.prefix == "" then DEFAULT_PREFIX else p.prefix) + Strings.TrimSpace(summary)
      && LongestPrefix(SummaryOf(p, text), text, max, est, k, m)
  }

  lemma {:induction false} Carries(p: SummarizingBudget, summary: string, max: int, est: Estimator, m: Message)
    requires exists k :: LongestPrefix(SummaryOf(p, SummaryText(p, summary)), SummaryText(p, summary), max, est, k, m)
    ensures CarriesSummary(p, summary, max, est, m)
  {
    hide Strings.TrimSpace, LongestPrefix;
  }

  /** The summary says something, and so does a prefix of its message that is within the budget. */
  ghost predicate SummaryFits(p: SummarizingBudget, summary: string, max: int, est: Estimator) {
    && Strings.TrimSpace(summary) != ""
    && SomePrefixFits(SummaryOf(p, SummaryText(p, summary)), SummaryText(p, summary), max, est)
  }

  lemma {:induction false} WholeFits(p: SummarizingBudget, summary: string, max: int, est: Estimator)
    requires Strings.TrimSpace(summary) != "" && est(SummaryOf(p, SummaryText(p, summary))) <= max
    ensures var text := SummaryText(p, summary);
            LongestPrefix(SummaryOf(p, text), text, max, est, |text|, SummaryOf(p, text)) && SummaryFits(p, summary, max, est)
  {
    hide Strings.TrimSpace, DEFAULT_PREFIX, LongestPrefix, SomePrefixFits;
    var text := SummaryText(p, summary);
    SaysSomething(if p.prefix == "" then DEFAULT_PREFIX else p.prefix, summary);
    WholePrefix(SummaryOf(p, text), text, max, est);
  }

  lemma {:induction false} WholePrefix(m: Message, text: string, max: int, est: Estimator)
    requires m.content == [Text(text)] && est(m) <= max && Strings.TrimSpace(text) != ""
    ensures LongestPrefix(m, text, max, est, |text|, m) && SomePrefixFits(m, text, max, est)
  {
    hide Strings.TrimSpace, MonotoneIn;
    assert text[..|text|] == text;
    assert WithText(m, text) == m;
  }

  lemma {:induction false} SaysSomething(prefix: string, summary: string)
    requires Strings.TrimSpace(summary) != ""
    ensures Strings.TrimSpace(prefix + Strings.TrimSpace(summary)) != ""
  {
    hide Strings.TrimSpace, Strings.IsSpace;
    var trimmed := Strings.TrimSpace(summary);
    var text := prefix + trimmed;
    TrimKeeps(summary);
    BlankIff(text);
    var i :| 0 <= i < |trimmed| && !Strings.IsSpace(trimmed[i]);
    assert text[|prefix| + i] == trimmed[i];
  }

  lemma {:induction false} TrimKeeps(s: string)
    requires Strings.TrimSpace(s) != ""
    ensures exists i :: 0 <= i < |Strings.TrimSpace(s)| && !Strings.IsSpace(Strings.TrimSpace(s)[i])
  {
    hide Strings.IsSpace;
    var t := Strings.TrimSpace(s);
    assert !Strings.IsSpace(t[|t| - 1]);
  }

  /** summaryMessage */
  method SummaryMessage(p: SummarizingBudget, summary: string, max: int, est: Estimator)
      returns (r: Result<Message, PolicyError>)
    requires max > 0
    ensures r.Ok? ==> r.value.isSummary && r.value.role == p.role && est(r.value) <= max
    ensures r.Ok? ==> r.value.result.None? && |r.value.content| == 1 && r.value.content[0].Text?
    ensures var text := SummaryText(p, summary);
            && (r.Ok? ==> exists k :: LongestPrefix(SummaryOf(p, text), text, max, est, k, r.value))
            && (Steady(SummaryOf(p, text), text, est) ==> (r.Ok? <==> SummaryFits(p, summary, max, est)))
  {
    hide Strings.TrimSpace, MonotoneIn, SomePrefixFits;
    var trimmed := Strings.TrimSpace(summary);
    if trimmed == "" {
      return Err(EmptySummary);
    }
    var text := SummaryText(p, summary);
    var m := SummaryOf(p, text);
    var count := est(m);
    if count < 0 {
      NegativeIsUnsteady(p, text, est);
      return Err(NegativeEstimate);
    }
    if count <= max {
      WholeFits(p, summary, max, est);
      return Ok(m);
    }
    r := TruncateTextMessage(m, max, est);
  }

  lemma {:induction false} NegativeIsUnsteady(p: SummarizingBudget, text: string, est: Estimator)
    requires est(SummaryOf(p, text)) < 0
    ensures !Steady(SummaryOf(p, text), text, est)
  {
    assert text[..|text|] == text;
    assert WithText(SummaryOf(p, text), text[..|text|]) == SummaryOf(p, text);
  }

  /** What a compaction keeps of the transcript, and what it hands to the summariser. */
  ghost predicate Compacted(ms: seq<Message>, max: int, est: Estimator, recent: seq<Message>, summarized: seq<Message>) {
    exists taken: nat :: && NewestSuffix(ms, taken, max, est)
                         && var start := DropLeading(ms, taken);
                         && recent == NonSummaries(ms[start..])
                         && summarized == ms[..start] + Summaries(ms[start..])
  }

  /** The estimator is steady on summary messages. */
  ghost predicate SteadySummaries(p: SummarizingBudget, est: Estimator) {
    forall text: string :: Steady(SummaryOf(p, text), text, est)
  }

  /** SummarizingBudget.ApplyWithResult; summarized and recent are the parts above the trigger */
  method ApplyWithResult(p: SummarizingBudget, ms: seq<Message>, est: Estimator, summarize: seq<Message> -> Option<string>)
      returns (r: Result<Applied, PolicyError>, ghost summarized: seq<Message>, ghost recent: seq<Message>)
    ensures r.Ok? ==> p.maxTokens > 0 && NonNegative(ms, est)
    ensures p.maxTokens > 0 && NonNegative(ms, est) && Tokens(ms, est) <= Trigger(p) ==> r == Ok(Applied(ms, None))
    ensures p.maxTokens > 0 && NonNegative(ms, est) && Tokens(ms, est) > Trigger(p) ==>
              && Compacted(ms, RecentBudget(p), est, recent, summarized)
              && (SteadySummaries(p, est) ==>
                    (r.Ok? <==> summarize(summarized).Some?
                                && SummaryFits(p, summarize(summarized).value, SummaryBudget(p), est)))
              && (r.Ok? ==>
                    && summarize(summarized).Some?
                    && var out := r.value.messages;
                    && out != [] && out[1..] == recent
                    && out[0].isSummary && out[0].role == p.role && est(out[0]) <= SummaryBudget(p)
                    && out[0].result.None? && |out[0].content| == 1 && out[0].content[0].Text?
                    && CarriesSummary(p, summarize(summarized).value, SummaryBudget(p), est, out[0])
                    && r.value.compaction == Some(Record(|ms|, |out|, |summarized|, |Summaries(ms)|, 0)))
  {
    hide NewestSuffix, Tokens, NonSummaries, Summaries, Steady, SummaryFits, SummaryText, CarriesSummary, LongestPrefix;
    summarized, recent := [], [];
    if p.maxTokens <= 0 {
      return Err(MaxTokensNotPositive), [], [];
    }
    var total := EstimateMessages(ms, est);
    if total.Err? {
      return Err(total.error), [], [];
    }
    if total.value <= Trigger(p) {
      return Ok(Applied(ms, None)), [], [];
    }
    BudgetsShare(p);
    var start, taken := NewestSuffixStart(ms, RecentBudget(p), est);
    if start.Err? {
      return Err(NegativeEstimate), [], [];
    }
    NewestSuffixBound(ms, taken, RecentBudget(p), est);
    var _, replaced := SplitSummaryMessages(ms);
    var kept, recentSummaries := SplitSummaryMessages(ms[start.value..]);
    var prefix := ms[..start.value] + recentSummaries;
    summarized, recent := prefix, kept;
    var summary := summarize(prefix);
    if summary.None? {
      return Err(SummarizerFailed), prefix, kept;
    }
    var head := SummaryMessage(p, summary.value, SummaryBudget(p), est);
    if head.Err? {
      return Err(head.error), prefix, kept;
    }
    Carries(p, summary.value, SummaryBudget(p), est, head.value);
    var out := [head.value] + kept;
    assert out[1..] == kept;
    return Ok(Applied(out, Some(Record(|ms|, |out|, |prefix|, |replaced|, 0)))), prefix, kept;
  }

  lemma {:induction false} SplitPoint(ms: seq<Message>, max: int, est: Estimator, recent: seq<Message>, summarized: seq<Message>)
      returns (taken: nat, start: nat)
    requires Compacted(ms, max, est, recent, summarized)
    ensures NewestSuffix(ms, taken, max, est) && taken <= start <= |ms|
    ensures start < |ms| ==> !ms[start].role.Tool?
    ensures recent == NonSummaries(ms[start..]) && summarized == ms[..start] + Summaries(ms[start..])
  {
    hide Tokens, NonSummaries, Summaries;
    taken :| && NewestSuffix(ms, taken, max, est)
             && recent == NonSummaries(ms[DropLeading(ms, taken)..])
             && summarized == ms[..DropLeading(ms, taken)] + Summaries(ms[DropLeading(ms, taken)..]);
    start := DropLeading(ms, taken);
  }

  lemma {:induction false} SplitAtConserves(ms: seq<Message>, start: nat)
    requires start <= |ms|
    ensures multiset(ms) == multiset(ms[..start] + Summaries(ms[start..])) + multiset(NonSummaries(ms[start..]))
    ensures |ms| == |ms[..start] + Summaries(ms[start..])| + |NonSummaries(ms[start..])|
  {
    hide NonSummaries, Summaries;
    SplitConserves(ms[start..]);
    assert ms == ms[..start] + ms[start..];
  }

  /** Every input message goes exactly once either to the summariser or, unchanged and in order, to the output. */
  lemma {:induction false} CompactionConserves(ms: seq<Message>, max: int, est: Estimator, recent: seq<Message>, summarized: seq<Message>)
    requires Compacted(ms, max, est, recent, summarized)
    ensures multiset(ms) == multiset(summarized) + multiset(recent)
    ensures |ms| == |summarized| + |recent|
    ensures forall m :: m in recent ==> !m.isSummary
  {
    hide NonSummaries, Summaries, Compacted, NewestSuffix;
    var _, start := SplitPoint(ms, max, est, recent, summarized);
    SplitAtConserves(ms, start);
    SplitConserves(ms[start..]);
  }

  lemma {:induction false} CompactionFits(ms: seq<Message>, max: int, est: Estimator, recent: seq<Message>, summarized: seq<Message>)
    requires Compacted(ms, max, est, recent, summarized) && max > 0 && NonNegative(ms, est)
    requires NoLargeMessage(ms, max, est)
    ensures Tokens(recent, est) <= max
  {
    hide NewestSuffix, Tokens, NonSummaries, Summaries, Compacted;
    var taken, start := SplitPoint(ms, max, est, recent, summarized);
    NonSummariesFit(ms, taken, max, est);
    NonSummariesShrink(ms, taken, start, est);
  }

  /** No message is above the budget on its own; earlier summaries, which are summarised again, may be. */
  ghost predicate NoLargeMessage(ms: seq<Message>, max: int, est: Estimator) {
    forall i :: 0 <= i < |ms| && !ms[i].isSummary ==> est(ms[i]) <= max
  }

  lemma {:induction false} NonSummariesFrom(ms: seq<Message>, i: nat, est: Estimator)
    requires i < |ms|
    ensures Tokens(NonSummaries(ms[i..]), est) ==
            (if ms[i].isSummary then 0 else est(ms[i])) + Tokens(NonSummaries(ms[i + 1..]), est)
  {
    var rest := NonSummaries(ms[i + 1..]);
    assert ms[i..][1..] == ms[i + 1..];
    assert [] + rest == rest && ([ms[i]] + rest)[1..] == rest;
  }

  lemma {:induction false} NonSummariesShrink(ms: seq<Message>, i: nat, j: nat, est: Estimator)
    requires NonNegative(ms, est) && i <= j <= |ms|
    ensures Tokens(NonSummaries(ms[j..]), est) <= Tokens(NonSummaries(ms[i..]), est)
    decreases j - i
  {
    hide Tokens, NonSummaries;
    if i < j {
      NonSummariesShrink(ms, i + 1, j, est);
      NonSummariesFrom(ms, i, est);
    }
  }

  lemma {:induction false} NonSummariesFit(ms: seq<Message>, start: nat, max: int, est: Estimator)
    requires NewestSuffix(ms, start, max, est) && max > 0 && NonNegative(ms, est) && NoLargeMessage(ms, max, est)
    ensures start <= |ms| && Tokens(NonSummaries(ms[start..]), est) <= max
  {
    hide Tokens, NonSummaries;
    NonSummariesTokens(ms[start..], est);
    if start < |ms| {
      NonSummariesTokens(ms[start + 1..], est);
      NonSummariesFrom(ms, start, est);
    }
  }

  /**
    With at least two tokens to share and no message but summaries above the recent budget, a compaction stays within
    MaxTokens, has one summary, at its head, and accounts for every message.
   */
  lemma {:induction false} CompactionMeetsBudget(p: SummarizingBudget, ms: seq<Message>, est: Estimator, out: seq<Message>, summarized: seq<Message>)
    requires p.maxTokens >= 2 && NonNegative(ms, est)
    requires out != [] && out[0].isSummary && est(out[0]) <= SummaryBudget(p)
    requires Compacted(ms, RecentBudget(p), est, out[1..], summarized)
    requires NoLargeMessage(ms, RecentBudget(p), est)
    ensures Tokens(out, est) <= p.maxTokens
    ensures forall i :: 0 < i < |out| ==> !out[i].isSummary
    ensures |ms| == |summarized| + |out| - 1
  {
    hide Compacted, SummaryBudget, RecentBudget;
    BudgetsShare(p);
    CompactionConserves(ms, RecentBudget(p), est, out[1..], summarized);
    CompactionFits(ms, RecentBudget(p), est, out[1..], summarized);
    forall i | 0 < i < |out|
      ensures !out[i].isSummary
    {
      assert out[i] == out[1..][i - 1] && out[i] in out[1..];
    }
  }

  /** With summaries in the user role, a compaction leaves no orphan result. */
  lemma {:induction false} CompactionOrphanFree(ms: seq<Message>, max: int, est: Estimator, out: seq<Message>, summarized: seq<Message>)
    requires OrphanFree(ms, None) && UserSummaries(ms)
    requires out != [] && out[0].role.User? && Compacted(ms, max, est, out[1..], summarized)
    ensures OrphanFree(out, None)
  {
    hide NewestSuffix, NonSummaries, Summaries, Compacted;
    var _, start := SplitPoint(ms, max, est, out[1..], summarized);
    SuffixOrphanFree(ms, None, start);
    NonSummariesOrphanFree(ms[start..], None);
    UncalledStart(out[1..], None);
    AnyCaller(out[1..], None, Some(out[0]));
  }

  /** With a single token there is nothing to share: a compaction can take two tokens. */
  lemma {:induction false} OneTokenIsTooFew(p: SummarizingBudget, est: Estimator, ms: seq<Message>, out: seq<Message>)
    requires p.maxTokens == 1 && (forall m :: est(m) == 1)
    requires |ms| == 2 && !ms[1].isSummary && !ms[1].role.Tool? && |out| == 2 && out[0].isSummary && out[1] == ms[1]
    ensures est(out[0]) <= SummaryBudget(p) && Compacted(ms, RecentBudget(p), est, out[1..], [ms[0]])
    ensures Tokens(out, est) > p.maxTokens
  {
    hide Tokens, NonSummaries, Summaries, NewestSuffix;
    LastOfTwo(ms, est);
    TwoTokens(out, est);
    LastKept(ms);
    assert out[1..] == [ms[1]] && ms[..1] == [ms[0]] && [ms[0]] + [] == [ms[0]];
    assert Compacted(ms, 1, est, out[1..], [ms[0]]);
  }

  lemma {:induction false} TwoTokens(ms: seq<Message>, est: Estimator)
    requires |ms| == 2 && forall m :: est(m) == 1
    ensures Tokens(ms, est) == 2 && Tokens(ms[1..], est) == 1 && Tokens(ms[2..], est) == 0
  {
    var tail := ms[1..];
    assert tail[1..] == [] && ms[2..] == [] && Tokens([], est) == 0;
    assert Tokens(tail, est) == est(tail[0]) + Tokens(tail[1..], est);
    assert Tokens(ms, est) == est(ms[0]) + Tokens(tail, est);
  }

  lemma {:induction false} LastOfTwo(ms: seq<Message>, est: Estimator)
    requires |ms| == 2 && forall m :: est(m) == 1
    ensures NewestSuffix(ms, 1, 1, est)
  {
    TwoTokens(ms, est);
    hide Tokens;
    assert ms[1 + 1..] == ms[2..] && ms[1 - 1..] == ms;
  }

  lemma {:induction false} LastKept(ms: seq<Message>)
    requires |ms| == 2 && !ms[1].isSummary && !ms[1].role.Tool?
    ensures DropLeading(ms, 1) == 1 && NonSummaries(ms[1..]) == [ms[1]] && Summaries(ms[1..]) == []
  {
    var last := ms[1..];
    assert last == [ms[1]] && last[1..] == [] && NonSummaries([]) == [] && Summaries([]) == [];
    assert NonSummaries(last) == [ms[1]] + NonSummaries(last[1..]) && Summaries(last) == [] + Summaries(last[1..]);
  }
}
