/** What repairing and preparing messages (internal/transcriptrepair/repair.go, agent.go) adds to their token count. */
module RepairCost {
  import opened Wrappers
  import opened Transcript
  import opened ContextWindow
  import S = StreamText
  import R = TranscriptRepair
  import Q = Requests

  // ----- Synthetic results -----

  /** Every use with an id has a result in the run. */
  ghost predicate Covers(uses: seq<ToolUse>, run: seq<Message>) {
    forall id :: id != "" && id in R.UseIDs(uses) ==> id in R.ResultIDs(run)
  }

  /** Every use with an id is answered right behind its message. */
  ghost predicate Served(ms: seq<Message>) {
    ms == [] ||
    ((!ms[0].role.Tool? ==> Covers(UsesOf(ms[0]), R.ToolRun(ms[1..]))) && Served(ms[1..]))
  }

  /** The synthetic results the repair puts behind a message with this run of recorded ones. */
  function MadeUp(m: Message, run: seq<Message>): seq<Message> {
    R.Missing(UsesOf(m), R.ResultIDs(R.Kept(R.UseIDs(UsesOf(m)), run)))
  }

  /** The tokens of all synthetic results the repair puts in. */
  function Synthetic(ms: seq<Message>, est: Estimator): int {
    if ms == [] then 0
    else (if ms[0].role.Tool? then 0 else Tokens(MadeUp(ms[0], R.ToolRun(ms[1..])), est)) + Synthetic(ms[1..], est)
  }

  ghost predicate NeverNegative(est: Estimator) {
    forall m: Message :: est(m) >= 0
  }

  lemma {:induction false} SyntheticNonNegative(ms: seq<Message>, est: Estimator)
    requires NeverNegative(est)
    ensures Synthetic(ms, est) >= 0
  {
    hide MadeUp, Tokens;
    if ms != [] {
      SyntheticNonNegative(ms[1..], est);
      TokensNonNegative(MadeUp(ms[0], R.ToolRun(ms[1..])), est);
    }
  }

  lemma {:induction false} CoveredMakesNothing(m: Message, run: seq<Message>)
    requires R.AllTool(run) && Covers(UsesOf(m), run)
    ensures MadeUp(m, run) == []
  {
    hide R.Missing, R.Kept, R.ResultIDs, UsesOf, R.UseIDs;
    R.KeptIDs(R.UseIDs(UsesOf(m)), run);
    R.NoneMissing(UsesOf(m), R.ResultIDs(R.Kept(R.UseIDs(UsesOf(m)), run)));
  }

  lemma {:induction false} ServedCostsNothing(ms: seq<Message>, est: Estimator)
    requires Served(ms)
    ensures Synthetic(ms, est) == 0
  {
    hide MadeUp, Covers, UsesOf;
    if ms != [] {
      ServedCostsNothing(ms[1..], est);
      if !ms[0].role.Tool? {
        CoveredMakesNothing(ms[0], R.ToolRun(ms[1..]));
      }
    }
  }

  // ----- The repair, group by group -----

  /** Results that follow no message are dropped. */
  lemma {:induction false} ToolsSkipped(run: seq<Message>, rest: seq<Message>, est: Estimator)
    requires R.AllTool(run)
    ensures Synthetic(run + rest, est) == Synthetic(rest, est) && (Served(run + rest) <==> Served(rest))
    ensures R.Repair(run + rest) == R.Repair(rest)
  {
    hide MadeUp, Covers, UsesOf, R.RepairRun;
    if run == [] {
      assert run + rest == rest;
    } else {
      ToolsSkipped(run[1..], rest, est);
      assert (run + rest)[1..] == run[1..] + rest;
    }
  }

  lemma {:induction false} GroupCost(m: Message, run: seq<Message>, rest: seq<Message>, est: Estimator)
    requires !m.role.Tool? && R.AllTool(run) && R.Cut(rest)
    ensures Synthetic([m] + run + rest, est) == Tokens(MadeUp(m, run), est) + Synthetic(rest, est)
    ensures Served([m] + run + rest) <==> Covers(UsesOf(m), run) && Served(rest)
  {
    hide MadeUp, Covers, UsesOf, Tokens, R.Repair;
    var ms := [m] + run + rest;
    assert ms[1..] == run + rest;
    R.ToolRunOf(run, rest);
    ToolsSkipped(run, rest, est);
  }

  lemma {:induction false} KeptCost(known: seq<string>, run: seq<Message>, est: Estimator)
    requires NeverNegative(est)
    ensures Tokens(R.Kept(known, run), est) <= Tokens(run, est)
    decreases |run|
  {
    if run != [] {
      hide Tokens, R.Keeps;
      var n := |run| - 1;
      KeptCost(known, run[..n], est);
      assert run == run[..n] + [run[n]];
      TokensConcat(run[..n], [run[n]], est);
      TokensConcat(R.Kept(known, run[..n]), [run[n]], est);
      OneMessage(run[n], est);
    }
  }

  lemma {:induction false} OneMessage(m: Message, est: Estimator)
    ensures Tokens([m], est) == est(m)
  {
    assert [m][1..] == [];
  }

  lemma {:induction false} RunCost(m: Message, run: seq<Message>, est: Estimator)
    requires NeverNegative(est)
    ensures Tokens(R.RepairRun(m, run), est) <= Tokens(run, est) + Tokens(MadeUp(m, run), est)
  {
    hide Tokens, R.Kept, R.Missing, R.ResultIDs, R.UseIDs, UsesOf;
    var kept := R.Kept(R.UseIDs(UsesOf(m)), run);
    KeptCost(R.UseIDs(UsesOf(m)), run, est);
    TokensConcat(kept, MadeUp(m, run), est);
  }

  lemma {:induction false} GroupTokens(m: Message, run: seq<Message>, rest: seq<Message>, est: Estimator)
    ensures Tokens([m] + run + rest, est) == est(m) + Tokens(run, est) + Tokens(rest, est)
  {
    hide Tokens;
    TokensConcat([m] + run, rest, est);
    TokensConcat([m], run, est);
    OneMessage(m, est);
  }

  /** Repairing adds at most the synthetic results. */
  lemma {:induction false} RepairedTokens(ms: seq<Message>, est: Estimator)
    requires NeverNegative(est)
    ensures Tokens(R.Repair(ms), est) <= Tokens(ms, est) + Synthetic(ms, est)
    decreases |ms|
  {
    if ms != [] {
      if ms[0].role.Tool? {
        RepairedTokens(ms[1..], est);
      } else {
        hide *;
        var m, run, rest := R.Group(ms);
        RepairedTokens(rest, est);
        R.RepairGroup(m, run, rest);
        GroupCost(m, run, rest, est);
        GroupTokens(m, run, rest, est);
        GroupTokens(m, R.RepairRun(m, run), R.Repair(rest), est);
        RunCost(m, run, est);
      }
    }
  }

  /** Behind messages that are served already, only the new messages can cost synthetic results. */
  lemma {:induction false} ContinuedTokens(a: seq<Message>, b: seq<Message>, est: Estimator)
    requires NeverNegative(est) && Served(a)
    ensures Tokens(R.Repair(a + b), est) <= Tokens(a, est) + Tokens(b, est) + Synthetic(b, est)
    decreases |a|
  {
    if a == [] {
      assert a + b == b;
      RepairedTokens(b, est);
    } else if a[0].role.Tool? {
      assert (a + b)[1..] == a[1..] + b;
      ContinuedTokens(a[1..], b, est);
      hide R.Repair;
      assert est(a[0]) >= 0;
    } else {
      hide *;
      var m, run, rest := R.Group(a);
      if rest != [] {
        ContinuedGroup(m, run, rest, b, est);
      } else {
        LastGroup(m, run, b, est);
        assert [m] + run + [] == [m] + run;
      }
    }
  }

  lemma {:induction false} ContinuedGroup(m: Message, run: seq<Message>, rest: seq<Message>, b: seq<Message>, est: Estimator)
    requires NeverNegative(est) && Served([m] + run + rest) && !m.role.Tool? && R.AllTool(run) && R.Cut(rest) && rest != []
    ensures Tokens(R.Repair([m] + run + rest + b), est) <= Tokens([m] + run + rest, est) + Tokens(b, est) + Synthetic(b, est)
    decreases |[m] + run + rest|, 0
  {
    assert R.Cut(rest + b);
    hide *;
    assert [m] + run + rest + b == [m] + run + (rest + b);
    assert |rest| < |[m] + run + rest|;
    GroupCost(m, run, rest, est);
    ContinuedTokens(rest, b, est);
    R.RepairGroup(m, run, rest + b);
    GroupTokens(m, run, rest, est);
    GroupTokens(m, R.RepairRun(m, run), R.Repair(rest + b), est);
    RunCost(m, run, est);
    CoveredMakesNothing(m, run);
    NoTokens(est);
  }

  lemma {:induction false} NoTokens(est: Estimator)
    ensures Tokens([], est) == 0
  {
  }

  lemma {:induction false} CoversMore(uses: seq<ToolUse>, run: seq<Message>, more: seq<Message>)
    requires Covers(uses, run)
    ensures Covers(uses, run + more)
  {
    hide R.UseIDs, R.ResultIDs;
    R.ResultIDsConcat(run, more);
  }

  lemma {:induction false} LastGroup(m: Message, run: seq<Message>, b: seq<Message>, est: Estimator)
    requires NeverNegative(est) && Served([m] + run + []) && !m.role.Tool? && R.AllTool(run)
    ensures Tokens(R.Repair([m] + run + b), est) <= Tokens([m] + run, est) + Tokens(b, est) + Synthetic(b, est)
  {
    assert R.Cut([]);
    var more, rest := R.SplitRun(b);
    assert R.AllTool(run + more);
    hide *;
    GroupCost(m, run, [], est);
    CoversMore(UsesOf(m), run, more);
    assert [m] + run + b == [m] + (run + more) + rest;
    R.RepairGroup(m, run + more, rest);
    GroupTokens(m, R.RepairRun(m, run + more), R.Repair(rest), est);
    RunCost(m, run + more, est);
    CoveredMakesNothing(m, run + more);
    NoTokens(est);
    RepairedTokens(rest, est);
    ToolsSkipped(more, rest, est);
    TokensConcat(run, more, est);
    TokensConcat(more, rest, est);
    GroupTokens(m, run, [], est);
    assert [m] + run + [] == [m] + run;
  }

  // ----- What the repair leaves is served -----

  lemma {:induction false} RepairRunCovers(m: Message, run: seq<Message>)
    requires R.AllTool(run)
    ensures Covers(UsesOf(m), R.RepairRun(m, run)) && R.AllTool(R.RepairRun(m, run))
  {
    hide R.Kept, R.Missing, R.ResultIDs, R.UseIDs, UsesOf, R.Unanswered;
    var known := R.UseIDs(UsesOf(m));
    var kept := R.Kept(known, run);
    R.KeptIDs(known, run);
    R.MissingIDs(UsesOf(m), R.ResultIDs(kept));
    R.ResultIDsConcat(kept, R.Missing(UsesOf(m), R.ResultIDs(kept)));
  }

  lemma {:induction false} RepairedIsServed(ms: seq<Message>)
    ensures Served(R.Repair(ms))
    decreases |ms|
  {
    if ms != [] {
      if ms[0].role.Tool? {
        RepairedIsServed(ms[1..]);
      } else {
        hide *;
        var m, run, rest := R.Group(ms);
        RepairedIsServed(rest);
        R.RepairStarts(rest);
        R.RepairGroup(m, run, rest);
        RepairRunCovers(m, run);
        GroupCost(m, R.RepairRun(m, run), R.Repair(rest), m => 0);
      }
    }
  }

  // ----- Served messages that a policy thins out -----

  /** No summary is a tool result. */
  ghost predicate PlainSummaries(ms: seq<Message>) {
    forall i :: 0 <= i < |ms| && ms[i].isSummary ==> ms[i].result.None?
  }

  lemma {:induction false} ServedSuffix(ms: seq<Message>, start: nat)
    requires Served(ms) && start <= |ms|
    ensures Served(ms[start..])
    decreases start
  {
    hide Covers, UsesOf;
    if start == 0 {
      assert ms[0..] == ms;
    } else {
      ServedSuffix(ms[1..], start - 1);
      assert ms[1..][start - 1..] == ms[start..];
    }
  }

  lemma {:induction false} RunStep(m: Message, ms: seq<Message>)
    ensures R.ToolRun([m] + ms) == if m.role.Tool? then [m] + R.ToolRun(ms) else []
  {
    assert ([m] + ms)[1..] == ms;
  }

  lemma {:induction false} IDsStep(m: Message, run: seq<Message>)
    ensures R.ResultIDs([m] + run) == R.Answered(m) + R.ResultIDs(run)
  {
    R.ResultIDsConcat([m], run);
    R.SingleID(m);
  }

  /** Taking summaries out loses no answer. */
  lemma {:induction false} ThinnedIsServed(ms: seq<Message>)
    requires Served(ms) && PlainSummaries(ms)
    ensures Served(NonSummaries(ms))
    ensures forall id :: id in R.ResultIDs(R.ToolRun(ms)) ==> id in R.ResultIDs(R.ToolRun(NonSummaries(ms)))
  {
    hide UsesOf, R.UseIDs, R.ResultIDs, R.ToolRun;
    if ms != [] {
      var m, rest := ms[0], ms[1..];
      ThinnedIsServed(rest);
      assert ms == [m] + rest;
      RunStep(m, rest);
      IDsStep(m, R.ToolRun(rest));
      var thin := NonSummaries(rest);
      if m.isSummary {
        assert NonSummaries(ms) == [] + thin == thin;
        if !m.role.Tool? {
          assert R.ResultIDs([]) == [] by { NoIDs(); }
        }
      } else {
        assert NonSummaries(ms) == [m] + thin && ([m] + thin)[1..] == thin;
        RunStep(m, thin);
        IDsStep(m, R.ToolRun(thin));
      }
    } else {
      assert NonSummaries(ms) == ms;
    }
  }

  lemma {:induction false} NoIDs()
    ensures R.ResultIDs([]) == []
  {
  }

  lemma {:induction false} HeadedIsServed(head: Message, ms: seq<Message>)
    requires Served(ms) && UsesOf(head) == []
    ensures Served([head] + ms)
  {
    assert ([head] + ms)[1..] == ms;
  }

  lemma {:induction false} PairedIsServed(ms: seq<Message>)
    requires Paired(ms)
    ensures Served(ms)
    decreases |ms|
  {
    if ms != [] {
      hide *;
      var m, run, rest := Q.PairedSplits(ms);
      PairedIsServed(rest);
      Q.AnsweredIDs(run, UsesOf(m));
      GroupCost(m, run, rest, m => 0);
      assert Covers(UsesOf(m), run) by { SameIDs(UsesOf(m), run); }
    }
  }

  lemma {:induction false} SameIDs(uses: seq<ToolUse>, run: seq<Message>)
    requires R.ResultIDs(run) == R.UseIDs(uses)
    ensures Covers(uses, run)
  {
    hide R.ResultIDs, R.UseIDs;
  }

  // ----- Summaries through the preparation -----

  lemma {:induction false} KeptAreFrom(known: seq<string>, run: seq<Message>)
    ensures forall m :: m in R.Kept(known, run) ==> m in run
  {
    hide R.Keeps;
    if run != [] {
      KeptAreFrom(known, run[..|run| - 1]);
    }
  }

  lemma {:induction false} MissingArePlain(uses: seq<ToolUse>, seen: seq<string>)
    ensures forall m :: m in R.Missing(uses, seen) ==> !m.isSummary
  {
    hide R.IsMissing;
    if uses != [] {
      MissingArePlain(uses[..|uses| - 1], seen);
    }
  }

  lemma {:induction false} RepairedAreFrom(ms: seq<Message>)
    ensures forall m :: m in R.Repair(ms) ==> m in ms || !m.isSummary
    decreases |ms|
  {
    if ms != [] {
      if ms[0].role.Tool? {
        RepairedAreFrom(ms[1..]);
      } else {
        hide R.Repair, R.Kept, R.Missing, R.ResultIDs, R.UseIDs, UsesOf, R.Cut, R.AllTool;
        var m, run, rest := R.Group(ms);
        RepairedAreFrom(rest);
        R.RepairGroup(m, run, rest);
        KeptAreFrom(R.UseIDs(UsesOf(m)), run);
        MissingArePlain(UsesOf(m), R.ResultIDs(R.Kept(R.UseIDs(UsesOf(m)), run)));
      }
    }
  }

  lemma {:induction false} PreparedSummaries(ms: seq<Message>, u: S.Unicode)
    requires PlainSummaries(ms)
    ensures PlainSummaries(Q.Prepare(ms, u))
  {
    hide R.Repair, Q.NormalMessages;
    var normal, out := Q.NormalMessages(ms, u), Q.Prepare(ms, u);
    RepairedAreFrom(normal);
    forall i | 0 <= i < |out| && out[i].isSummary
      ensures out[i].result.None?
    {
      assert out[i] in out;
      var k :| 0 <= k < |normal| && normal[k] == out[i];
      Q.NormalAt(ms, u, k);
    }
  }

  lemma {:induction false} NormalIsServed(ms: seq<Message>, u: S.Unicode)
    requires Paired(ms)
    ensures Served(Q.NormalMessages(ms, u))
  {
    hide Q.NormalMessages, Served, Paired;
    Q.NormalPaired(ms, u);
    PairedIsServed(Q.NormalMessages(ms, u));
  }

  // ----- Preparing twice -----

  lemma {:induction false} CoveredLeavesNone(uses: seq<ToolUse>, run: seq<Message>)
    requires Covers(uses, run)
    ensures R.NoDup(R.Unanswered(uses, R.ResultIDs(run)))
  {
    hide R.UseIDs, R.ResultIDs, R.Unanswered;
    var unanswered := R.Unanswered(uses, R.ResultIDs(run));
    assert forall k :: 0 <= k < |unanswered| ==> unanswered[k] in unanswered;
    R.MissingIDs(uses, R.ResultIDs(run));
  }

  lemma {:induction false} ServedIsRepairable(ms: seq<Message>)
    requires Served(ms)
    ensures R.Repairable(ms)
    decreases |ms|
  {
    if ms != [] {
      if ms[0].role.Tool? {
        ServedIsRepairable(ms[1..]);
      } else {
        hide *;
        var m, run, rest := R.Group(ms);
        GroupCost(m, run, rest, m => 0);
        ServedIsRepairable(rest);
        CoveredLeavesNone(UsesOf(m), run);
        R.RepairGroup(m, run, rest);
      }
    }
  }

  /**
    Preparing prepared messages changes nothing exactly when no message leaves one id unanswered twice;
    a context policy that returns its messages then changes nothing.
   */
  lemma {:induction false} PrepareTwiceIff(ms: seq<Message>, u: S.Unicode)
    ensures Q.Prepare(Q.Prepare(ms, u), u) == Q.Prepare(ms, u) <==> R.Repairable(ms)
  {
    var out := Q.Prepare(ms, u);
    Q.PreparedIsNormal(ms, u);
    RepairedIsServed(Q.NormalMessages(ms, u));
    ServedIsRepairable(out);
    R.RepairedIffRepairable(out);
    Q.RequestAdjacentIff(ms, u);
    hide R.Repair, Q.NormalMessages, R.Adjacent, Served, R.Repairable;
    if R.Adjacent(out) {
      R.RepairKeepsAdjacent(out);
    }
  }
}
