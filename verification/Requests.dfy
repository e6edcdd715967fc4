/** agent.go, prepareMessagesForModel: from the messages of a session to those of a model request. */
module Requests {
  import opened Transcript
  import S = StreamText
  import C = AssistantContent
  import R = TranscriptRepair

  function NormalMessage(m: Message, u: S.Unicode): Message {
    if m.role.Assistant? && m.content != [] then m.(content := C.Normalize(m.content, u)) else m
  }

  function NormalMessages(ms: seq<Message>, u: S.Unicode): (out: seq<Message>)
    ensures |out| == |ms|
  {
    if ms == [] then [] else NormalMessages(ms[..|ms| - 1], u) + [NormalMessage(ms[|ms| - 1], u)]
  }

  function Prepare(ms: seq<Message>, u: S.Unicode): seq<Message> {
    R.Repair(NormalMessages(ms, u))
  }

  /** normalizeAssistantTextMessages */
  method NormalizeAssistantTextMessages(messages: seq<Message>, u: S.Unicode) returns (out: seq<Message>)
    ensures out == NormalMessages(messages, u)
  {
    hide C.Normalize;
    out := [];
    for i := 0 to |messages|
      invariant out == NormalMessages(messages[..i], u)
    {
      var normalized := messages[i];
      if normalized.role.Assistant? && normalized.content != [] {
        var content := C.NormalizeAssistantTextContent(normalized.content, u);
        normalized := normalized.(content := content);
      }
      assert messages[..i + 1][..i] == messages[..i];
      out := out + [normalized];
    }
    assert messages[..|messages|] == messages;
  }

  /** prepareMessagesForModel */
  method PrepareMessagesForModel(messages: seq<Message>, u: S.Unicode) returns (out: seq<Message>)
    ensures out == Prepare(messages, u)
  {
    var normalized := NormalizeAssistantTextMessages(messages, u);
    out := R.RepairToolUseAdjacency(normalized);
  }

  // ----- Normalising changes no tool use -----

  lemma {:induction false} UsesOfNonText(content: seq<Block>)
    ensures Uses(C.NonText(content)) == Uses(content)
  {
    if content != [] {
      var front, b := content[..|content| - 1], content[|content| - 1];
      UsesOfNonText(front);
      assert (C.NonText(front) + [b])[..|C.NonText(front)|] == C.NonText(front);
      assert C.NonText(front) + [] == C.NonText(front);
    }
  }

  lemma {:induction false} NormalMessageKeeps(m: Message, u: S.Unicode)
    ensures UsesOf(NormalMessage(m, u)) == UsesOf(m)
    ensures NormalMessage(NormalMessage(m, u), u) == NormalMessage(m, u)
  {
    hide C.Normalize, C.NonText, Uses;
    C.NormalizeKeeps(m.content, u);
    C.NormalizeIdempotent(m.content, u);
    UsesOfNonText(m.content);
    UsesOfNonText(C.Normalize(m.content, u));
  }

  lemma {:induction false} NormalAt(ms: seq<Message>, u: S.Unicode, i: nat)
    requires i < |ms|
    ensures NormalMessages(ms, u)[i] == NormalMessage(ms[i], u)
    decreases |ms|
  {
    hide NormalMessage;
    if i < |ms| - 1 {
      NormalAt(ms[..|ms| - 1], u, i);
    }
  }

  /** Normalising changes nothing but whitespace in the texts of assistant messages. */
  lemma {:induction false} NormalKeeps(ms: seq<Message>, i: nat, u: S.Unicode)
    requires i < |ms|
    ensures var m, normal := ms[i], NormalMessages(ms, u)[i];
            && normal == m.(content := normal.content)
            && (!m.role.Assistant? ==> normal == m)
            && C.NonText(normal.content) == C.NonText(m.content)
            && S.NonSpace(C.Plain(normal.content)) == S.NonSpace(C.Plain(m.content))
  {
    hide C.Normalize, C.NonText, S.NonSpace, C.Plain;
    NormalAt(ms, u, i);
    C.NormalizeKeeps(ms[i].content, u);
  }

  lemma {:induction false} NormalConcat(a: seq<Message>, b: seq<Message>, u: S.Unicode)
    ensures NormalMessages(a + b, u) == NormalMessages(a, u) + NormalMessages(b, u)
  {
    hide NormalMessage, NormalMessages;
    forall i | 0 <= i < |a + b|
      ensures NormalMessages(a + b, u)[i] == (NormalMessages(a, u) + NormalMessages(b, u))[i]
    {
      NormalAt(a + b, u, i);
      if i < |a| {
        NormalAt(a, u, i);
      } else {
        NormalAt(b, u, i - |a|);
      }
    }
  }

  lemma {:induction false} NormalFixed(ms: seq<Message>, u: S.Unicode)
    requires forall i :: 0 <= i < |ms| ==> NormalMessage(ms[i], u) == ms[i]
    ensures NormalMessages(ms, u) == ms
  {
    hide NormalMessage, NormalMessages;
    forall i | 0 <= i < |ms|
      ensures NormalMessages(ms, u)[i] == ms[i]
    {
      NormalAt(ms, u, i);
    }
  }

  lemma {:induction false} NormalGroup(m: Message, run: seq<Message>, rest: seq<Message>, u: S.Unicode)
    requires !m.role.Tool? && R.AllTool(run)
    ensures NormalMessages([m] + run + rest, u) == [NormalMessage(m, u)] + run + NormalMessages(rest, u)
  {
    hide NormalMessages, C.Normalize;
    NormalConcat([m] + run, rest, u);
    NormalConcat([m], run, u);
    NormalAt([m], u, 0);
    assert NormalMessages([m], u) == [NormalMessage(m, u)];
    NormalFixed(run, u);
  }

  lemma {:induction false} NormalCut(ms: seq<Message>, u: S.Unicode)
    requires R.Cut(ms)
    ensures R.Cut(NormalMessages(ms, u))
  {
    hide NormalMessages, C.Normalize;
    if ms != [] {
      NormalAt(ms, u, 0);
    }
  }

  lemma {:induction false} NormalRepairable(ms: seq<Message>, u: S.Unicode)
    ensures R.Repairable(NormalMessages(ms, u)) <==> R.Repairable(ms)
    decreases |ms|
  {
    hide NormalMessages, C.Normalize, R.NoDup, R.Unanswered, R.ResultIDs, UsesOf, R.Cut;
    if ms == [] {
      NormalFixed(ms, u);
    } else if ms[0].role.Tool? {
      NormalConcat([ms[0]], ms[1..], u);
      NormalFixed([ms[0]], u);
      assert ms == [ms[0]] + ms[1..];
      assert NormalMessages(ms, u)[1..] == NormalMessages(ms[1..], u);
      NormalRepairable(ms[1..], u);
    } else {
      hide R.Repairable;
      var m, run, rest := R.Group(ms);
      NormalRepairable(rest, u);
      NormalCut(rest, u);
      NormalGroup(m, run, rest, u);
      NormalMessageKeeps(m, u);
      R.RepairGroup(m, run, rest);
      R.RepairGroup(NormalMessage(m, u), run, NormalMessages(rest, u));
    }
  }

  /** A request answers every tool use exactly when no message leaves one id unanswered twice. */
  lemma {:induction false} RequestAdjacentIff(ms: seq<Message>, u: S.Unicode)
    ensures R.Adjacent(Prepare(ms, u)) <==> R.Repairable(ms)
  {
    NormalRepairable(ms, u);
    R.RepairedIffRepairable(NormalMessages(ms, u));
  }

  // ----- Prepared messages are normal -----

  lemma {:induction false} NonToolHas(ms: seq<Message>, m: Message)
    requires !m.role.Tool?
    ensures m in ms <==> m in R.NonTool(ms)
    decreases |ms|
  {
    if ms != [] {
      NonToolHas(ms[1..], m);
      assert ms == [ms[0]] + ms[1..];
    }
  }

  lemma {:induction false} PreparedIsNormal(ms: seq<Message>, u: S.Unicode)
    ensures NormalMessages(Prepare(ms, u), u) == Prepare(ms, u)
  {
    hide C.Normalize, R.Repair, R.NonTool, NormalMessages;
    var normal, out := NormalMessages(ms, u), Prepare(ms, u);
    R.RepairKeepsNonTool(normal);
    forall i | 0 <= i < |out|
      ensures NormalMessage(out[i], u) == out[i]
    {
      if !out[i].role.Tool? {
        NonToolHas(out, out[i]);
        NonToolHas(normal, out[i]);
        var k :| 0 <= k < |normal| && normal[k] == out[i];
        NormalAt(ms, u, k);
        NormalMessageKeeps(ms[k], u);
      }
    }
    NormalFixed(out, u);
  }

  // ----- Paired transcripts -----

  /** The uses of every message have ids, all different. */
  ghost predicate Addressed(ms: seq<Message>) {
    forall i :: 0 <= i < |ms| ==> Distinct(ms[i])
  }

  ghost predicate Distinct(m: Message) {
    "" !in R.UseIDs(UsesOf(m)) && R.NoDup(R.UseIDs(UsesOf(m)))
  }

  lemma {:induction false} AnsweredIDs(results: seq<Message>, uses: seq<ToolUse>)
    requires AnswerAll(results, uses)
    ensures R.AllResults(results) && R.ResultIDs(results) == R.UseIDs(uses)
    decreases |uses|
  {
    if uses != [] {
      var n := |uses| - 1;
      AnsweredIDs(results[..n], uses[..n]);
      assert results[..n] + [results[n]] == results;
    }
  }

  lemma {:induction false} PairedSplits(ms: seq<Message>)
      returns (m: Message, run: seq<Message>, rest: seq<Message>)
    requires Paired(ms) && ms != []
    ensures ms == [m] + run + rest && !m.role.Tool? && R.AllTool(run) && R.Cut(rest)
    ensures AnswerAll(run, UsesOf(m)) && Paired(rest)
  {
    hide UsesOf;
    m := ms[0];
    var n := |UsesOf(m)|;
    run, rest := ms[1..n + 1], ms[n + 1..];
    assert ms == [m] + run + rest;
  }

  lemma {:induction false} AddressedGroup(m: Message, run: seq<Message>, rest: seq<Message>)
    requires R.AllTool(run)
    ensures Addressed([m] + run + rest) <==> Distinct(m) && Addressed(rest)
  {
    hide Distinct;
    var all := [m] + run + rest;
    assert all[0] == m && forall i :: 0 <= i < |rest| ==> all[1 + |run| + i] == rest[i];
    forall i | 0 <= i < |run|
      ensures Distinct(run[i])
    {
      ToolDistinct(run[i]);
    }
    assert forall i :: 0 <= i < |all| ==> all[i] == m || all[i] in run || all[i] in rest;
  }

  lemma {:induction false} ToolDistinct(m: Message)
    requires m.role.Tool?
    ensures Distinct(m)
  {
  }

  lemma {:induction false} AnswersComplete(m: Message, run: seq<Message>)
    requires AnswerAll(run, UsesOf(m))
    ensures R.Complete(UsesOf(m), run) <==> Distinct(m)
    ensures R.NoDup(R.Unanswered(UsesOf(m), R.ResultIDs(run)))
  {
    hide UsesOf, R.UseIDs, R.ResultIDs, R.Unanswered, AnswerAll;
    var uses := UsesOf(m);
    var unanswered := R.Unanswered(uses, R.ResultIDs(run));
    assert forall k :: 0 <= k < |unanswered| ==> unanswered[k] in unanswered;
    AnsweredIDs(run, uses);
    R.MissingIDs(uses, R.ResultIDs(run));
  }

  lemma {:induction false} PairedAdjacentIff(ms: seq<Message>)
    requires Paired(ms)
    ensures R.Repairable(ms) && (R.Adjacent(ms) <==> Addressed(ms))
    decreases |ms|
  {
    if ms != [] {
      hide *;
      var m, run, rest := PairedSplits(ms);
      PairedAdjacentIff(rest);
      AnswersComplete(m, run);
      R.AdjacentGroup(m, run, rest);
      R.RepairGroup(m, run, rest);
      AddressedGroup(m, run, rest);
    }
  }

  /**
    The request made of a paired transcript answers every use; it is the whole transcript, up to
    whitespace in texts, exactly when every message's uses have ids, all different.
   */
  lemma {:induction false} PairedIsSentWholeIff(ms: seq<Message>, u: S.Unicode)
    requires Paired(ms)
    ensures R.Adjacent(Prepare(ms, u))
    ensures Prepare(ms, u) == NormalMessages(ms, u) <==> Addressed(ms)
  {
    hide R.Repair, NormalMessages, Addressed, R.Adjacent;
    PairedAdjacentIff(ms);
    RequestAdjacentIff(ms, u);
    NormalPaired(ms, u);
    NormalAddressed(ms, u);
    var normal := NormalMessages(ms, u);
    PairedAdjacentIff(normal);
    if R.Adjacent(normal) {
      R.RepairKeepsAdjacent(normal);
    }
  }

  lemma {:induction false} NormalAddressed(ms: seq<Message>, u: S.Unicode)
    ensures Addressed(NormalMessages(ms, u)) <==> Addressed(ms)
  {
    hide NormalMessages, NormalMessage, UsesOf, R.UseIDs, R.NoDup;
    forall i | 0 <= i < |ms|
      ensures Distinct(NormalMessages(ms, u)[i]) <==> Distinct(ms[i])
    {
      NormalAt(ms, u, i);
      NormalMessageKeeps(ms[i], u);
    }
  }

  lemma {:induction false} PairedJoins(m: Message, run: seq<Message>, rest: seq<Message>)
    requires !m.role.Tool? && AnswerAll(run, UsesOf(m)) && Paired(rest)
    ensures Paired([m] + run + rest)
  {
    hide UsesOf, AnswerAll;
    var ms, n := [m] + run + rest, |UsesOf(m)|;
    assert |run| == n by { AnswerCount(run, UsesOf(m)); }
    assert ms[1..n + 1] == run && ms[n + 1..] == rest;
  }

  lemma {:induction false} AnswerCount(run: seq<Message>, uses: seq<ToolUse>)
    requires AnswerAll(run, uses)
    ensures |run| == |uses|
  {
  }

  lemma {:induction false} NormalPaired(ms: seq<Message>, u: S.Unicode)
    requires Paired(ms)
    ensures Paired(NormalMessages(ms, u))
    decreases |ms|
  {
    hide NormalMessages, UsesOf, AnswerAll, C.Normalize, R.Cut;
    if ms == [] {
      NormalFixed(ms, u);
    } else {
      var m, run, rest := PairedSplits(ms);
      hide Paired;
      NormalPaired(rest, u);
      NormalGroup(m, run, rest, u);
      NormalMessageKeeps(m, u);
      PairedJoins(NormalMessage(m, u), run, NormalMessages(rest, u));
    }
  }

  /** Ids that are distinct where they are given are enough for every request to answer every use. */
  lemma {:induction false} GivenIDsDistinct(ms: seq<Message>, u: S.Unicode)
    requires forall i :: 0 <= i < |ms| ==> R.NoDup(R.Unanswered(UsesOf(ms[i]), []))
    ensures R.Adjacent(Prepare(ms, u))
  {
    DistinctRepairable(ms);
    RequestAdjacentIff(ms, u);
  }

  lemma {:induction false} FewerUnanswered(uses: seq<ToolUse>, seen: seq<string>)
    requires R.NoDup(R.Unanswered(uses, []))
    ensures R.NoDup(R.Unanswered(uses, seen))
    decreases |uses|
  {
    if uses != [] {
      hide R.Unanswered;
      var front, use := uses[..|uses| - 1], uses[|uses| - 1];
      UnansweredStep(uses, []);
      UnansweredStep(uses, seen);
      R.MissingIDs(front, []);
      R.MissingIDs(front, seen);
      if use.id != "" {
        R.SplitNoDup(R.Unanswered(front, []), use.id);
        FewerUnanswered(front, seen);
        R.AddNew(R.Unanswered(front, seen), use.id);
      } else {
        assert R.Unanswered(front, []) + [] == R.Unanswered(front, []);
        assert R.Unanswered(front, seen) + [] == R.Unanswered(front, seen);
        FewerUnanswered(front, seen);
      }
    }
  }

  lemma {:induction false} UnansweredStep(uses: seq<ToolUse>, seen: seq<string>)
    requires uses != []
    ensures var use := uses[|uses| - 1];
            R.Unanswered(uses, seen) ==
            R.Unanswered(uses[..|uses| - 1], seen) + (if use.id != "" && use.id !in seen then [use.id] else [])
  {
  }

  lemma {:induction false} DistinctRepairable(ms: seq<Message>)
    requires forall i :: 0 <= i < |ms| ==> R.NoDup(R.Unanswered(UsesOf(ms[i]), []))
    ensures R.Repairable(ms)
    decreases |ms|
  {
    hide R.NoDup, R.Unanswered, UsesOf, R.ResultIDs;
    if ms != [] {
      if ms[0].role.Tool? {
        DistinctRepairable(ms[1..]);
      } else {
        var run := R.ToolRun(ms[1..]);
        FewerUnanswered(UsesOf(ms[0]), R.ResultIDs(run));
        assert ms[1..][|run|..] == ms[1 + |run|..];
        DistinctRepairable(ms[1..][|run|..]);
      }
    }
  }
}
