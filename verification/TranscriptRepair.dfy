/** internal/transcriptrepair/repair.go: making every tool use of a transcript answered. */
module TranscriptRepair {
  import opened Wrappers
  import opened Transcript

  const INTERRUPTED := "tool call was interrupted before a result was recorded; continue without relying on this tool output"

  function Interrupted(use: ToolUse): Message {
    ResultMessage(ToolResult(use.id, use.name, INTERRUPTED, true, NO_MARKS))
  }

  function UseIDs(uses: seq<ToolUse>): seq<string> {
    if uses == [] then [] else UseIDs(uses[..|uses| - 1]) + [uses[|uses| - 1].id]
  }

  /** The ids answered by a run of tool messages; one without a result answers nothing. */
  function ResultIDs(run: seq<Message>): seq<string> {
    if run == [] then [] else ResultIDs(run[..|run| - 1]) + Answered(run[|run| - 1])
  }

  function Answered(m: Message): seq<string> {
    if m.result.Some? then [m.result.value.toolUseID] else []
  }

  predicate NoDup(ids: seq<string>) {
    forall i, j :: 0 <= i < j < |ids| ==> ids[i] != ids[j]
  }

  predicate AllTool(run: seq<Message>) {
    forall i :: 0 <= i < |run| ==> run[i].role.Tool?
  }

  predicate AllResults(run: seq<Message>) {
    forall i :: 0 <= i < |run| ==> run[i].role.Tool? && run[i].result.Some?
  }

  // ----- What a provider accepts -----

  /** The run answers each non-empty use id exactly once and nothing else. */
  ghost predicate Complete(uses: seq<ToolUse>, run: seq<Message>) {
    && AllResults(run) && NoDup(ResultIDs(run))
    && forall id :: id in ResultIDs(run) <==> id != "" && id in UseIDs(uses)
  }

  /** The leading run of tool messages. */
  function ToolRun(ms: seq<Message>): (run: seq<Message>)
    ensures run <= ms && AllTool(run)
    ensures |run| < |ms| ==> !ms[|run|].role.Tool?
  {
    if ms == [] || !ms[0].role.Tool? then [] else [ms[0]] + ToolRun(ms[1..])
  }

  /** No result stands alone and every use is answered right behind its message. */
  ghost predicate Adjacent(ms: seq<Message>)
    decreases |ms|
  {
    ms == [] ||
    (var run := ToolRun(ms[1..]);
     !ms[0].role.Tool? && Complete(UsesOf(ms[0]), run) && Adjacent(ms[1..][|run|..]))
  }

  // ----- The repair as a function -----

  /** The recorded results that are kept: the first one for each known id. */
  function Kept(known: seq<string>, run: seq<Message>): seq<Message> {
    if run == [] then []
    else
      var front, m := Kept(known, run[..|run| - 1]), run[|run| - 1];
      if Keeps(known, front, m) then front + [m] else front
  }

  predicate Keeps(known: seq<string>, kept: seq<Message>, m: Message) {
    && m.result.Some? && m.result.value.toolUseID != ""
    && m.result.value.toolUseID in known && m.result.value.toolUseID !in ResultIDs(kept)
  }

  predicate IsMissing(use: ToolUse, seen: seq<string>) {
    use.id != "" && use.id !in seen
  }

  /** Synthetic results for the uses whose id is not seen. */
  function Missing(uses: seq<ToolUse>, seen: seq<string>): seq<Message> {
    if uses == [] then []
    else
      var use := uses[|uses| - 1];
      Missing(uses[..|uses| - 1], seen) + (if IsMissing(use, seen) then [Interrupted(use)] else [])
  }

  function RepairRun(m: Message, run: seq<Message>): seq<Message> {
    var kept := Kept(UseIDs(UsesOf(m)), run);
    kept + Missing(UsesOf(m), ResultIDs(kept))
  }

  function Repair(ms: seq<Message>): seq<Message>
    decreases |ms|
  {
    if ms == [] then []
    else if ms[0].role.Tool? then Repair(ms[1..])
    else
      var run := ToolRun(ms[1..]);
      [ms[0]] + RepairRun(ms[0], run) + Repair(ms[1..][|run|..])
  }

  // ----- When the repair succeeds -----

  /** The ids of the uses without a recorded result. */
  function Unanswered(uses: seq<ToolUse>, seen: seq<string>): seq<string> {
    if uses == [] then []
    else
      var use := uses[|uses| - 1];
      Unanswered(uses[..|uses| - 1], seen) + (if IsMissing(use, seen) then [use.id] else [])
  }

  /** No non-empty id is used twice by one message without any result for it. */
  predicate Repairable(ms: seq<Message>)
    decreases |ms|
  {
    if ms == [] then true
    else if ms[0].role.Tool? then Repairable(ms[1..])
    else
      var run := ToolRun(ms[1..]);
      && NoDup(Unanswered(UsesOf(ms[0]), ResultIDs(run)))
      && Repairable(ms[1..][|run|..])
  }

  lemma {:induction false} ResultIDsConcat(a: seq<Message>, b: seq<Message>)
    ensures ResultIDs(a + b) == ResultIDs(a) + ResultIDs(b)
    decreases |b|
  {
    if b == [] {
      assert a + b == a;
    } else {
      ResultIDsConcat(a, b[..|b| - 1]);
      assert (a + b)[..|a + b| - 1] == a + b[..|b| - 1];
    }
  }

  lemma {:induction false} AddNew(ids: seq<string>, id: string)
    requires NoDup(ids) && id !in ids
    ensures NoDup(ids + [id])
  {
  }

  lemma {:induction false} SingleID(m: Message)
    ensures ResultIDs([m]) == Answered(m)
  {
    assert [m][..0] == [];
  }

  lemma {:induction false} SyntheticAnswer(use: ToolUse)
    ensures AllResults([Interrupted(use)]) && ResultIDs([Interrupted(use)]) == [use.id]
  {
    SingleID(Interrupted(use));
  }

  lemma {:induction false} IDsSnoc(front: seq<Message>, m: Message)
    ensures ResultIDs(front + [m]) == ResultIDs(front) + Answered(m)
  {
    assert (front + [m])[..|front|] == front;
  }

  lemma {:induction false} KeptSnoc(known: seq<string>, front: seq<Message>, m: Message)
    ensures var kept := Kept(known, front);
            Kept(known, front + [m]) == if Keeps(known, kept, m) then kept + [m] else kept
  {
    hide Keeps;
    assert (front + [m])[..|front|] == front;
  }

  /** The kept results are exactly one for each known id that is answered. */
  ghost predicate KeepsRight(known: seq<string>, run: seq<Message>, kept: seq<Message>) {
    && AllResults(kept) && NoDup(ResultIDs(kept))
    && forall id :: id in ResultIDs(kept) <==> id in ResultIDs(run) && id != "" && id in known
  }

  lemma {:induction false} KeepsRightStep(known: seq<string>, front: seq<Message>, kept: seq<Message>, m: Message)
    requires KeepsRight(known, front, kept) && m.role.Tool?
    ensures KeepsRight(known, front + [m], if Keeps(known, kept, m) then kept + [m] else kept)
  {
    hide ResultIDs, NoDup;
    IDsSnoc(front, m);
    IDsSnoc(kept, m);
    if Keeps(known, kept, m) {
      AddNew(ResultIDs(kept), m.result.value.toolUseID);
    }
  }

  lemma {:induction false} NothingKept(known: seq<string>)
    ensures Kept(known, []) == [] && KeepsRight(known, [], [])
  {
  }

  lemma {:induction false} KeptRight(known: seq<string>, run: seq<Message>)
    requires AllTool(run)
    ensures KeepsRight(known, run, Kept(known, run))
    decreases |run|
  {
    hide ResultIDs, Kept, KeepsRight, Keeps;
    if run == [] {
      NothingKept(known);
    } else {
      var front, m := run[..|run| - 1], run[|run| - 1];
      assert run == front + [m];
      KeptRight(known, front);
      KeptSnoc(known, front, m);
      KeepsRightStep(known, front, Kept(known, front), m);
    }
  }

  lemma {:induction false} KeptIDs(known: seq<string>, run: seq<Message>)
    requires AllTool(run)
    ensures AllResults(Kept(known, run)) && NoDup(ResultIDs(Kept(known, run)))
    ensures forall id :: id in ResultIDs(Kept(known, run)) <==> id in ResultIDs(run) && id != "" && id in known
  {
    hide ResultIDs, Kept, NoDup, AllResults;
    KeptRight(known, run);
  }

  /** The synthetic results answer exactly the unanswered ids. */
  ghost predicate MissesRight(uses: seq<ToolUse>, seen: seq<string>, missing: seq<Message>, unanswered: seq<string>) {
    && AllResults(missing) && ResultIDs(missing) == unanswered
    && forall id :: id in unanswered <==> id != "" && id in UseIDs(uses) && id !in seen
  }

  lemma {:induction false} UseIDsSnoc(front: seq<ToolUse>, use: ToolUse)
    ensures UseIDs(front + [use]) == UseIDs(front) + [use.id]
  {
    assert (front + [use])[..|front|] == front;
  }

  lemma {:induction false} MissingSnoc(front: seq<ToolUse>, use: ToolUse, seen: seq<string>)
    ensures Missing(front + [use], seen) == Missing(front, seen) + (if IsMissing(use, seen) then [Interrupted(use)] else [])
    ensures Unanswered(front + [use], seen) == Unanswered(front, seen) + (if IsMissing(use, seen) then [use.id] else [])
  {
    hide IsMissing, Interrupted;
    assert (front + [use])[..|front|] == front;
  }

  lemma {:induction false} MissesRightStep(
      front: seq<ToolUse>, use: ToolUse, seen: seq<string>, missing: seq<Message>, unanswered: seq<string>)
    requires MissesRight(front, seen, missing, unanswered)
    ensures MissesRight(front + [use], seen, missing + (if IsMissing(use, seen) then [Interrupted(use)] else []),
                        unanswered + (if IsMissing(use, seen) then [use.id] else []))
  {
    hide UseIDs, ResultIDs, Interrupted;
    UseIDsSnoc(front, use);
    SyntheticAnswer(use);
    ResultIDsConcat(missing, [Interrupted(use)]);
    assert missing + [] == missing && unanswered + [] == unanswered;
  }

  lemma {:induction false} MissingRight(uses: seq<ToolUse>, seen: seq<string>)
    ensures MissesRight(uses, seen, Missing(uses, seen), Unanswered(uses, seen))
    decreases |uses|
  {
    if uses != [] {
      hide UseIDs, ResultIDs, Missing, Unanswered, MissesRight, IsMissing, Interrupted;
      var front, use := uses[..|uses| - 1], uses[|uses| - 1];
      assert uses == front + [use];
      MissingRight(front, seen);
      MissingSnoc(front, use, seen);
      MissesRightStep(front, use, seen, Missing(front, seen), Unanswered(front, seen));
    }
  }

  lemma {:induction false} MissingIDs(uses: seq<ToolUse>, seen: seq<string>)
    ensures AllResults(Missing(uses, seen)) && ResultIDs(Missing(uses, seen)) == Unanswered(uses, seen)
    ensures forall id :: id in Unanswered(uses, seen) <==> id != "" && id in UseIDs(uses) && id !in seen
  {
    hide UseIDs, ResultIDs, Missing, Unanswered, AllResults;
    MissingRight(uses, seen);
  }

  lemma {:induction false} UnansweredSame(uses: seq<ToolUse>, a: seq<string>, b: seq<string>)
    requires forall id :: id in UseIDs(uses) && id != "" ==> (id in a <==> id in b)
    ensures Unanswered(uses, a) == Unanswered(uses, b)
    decreases |uses|
  {
    if uses != [] {
      assert uses[|uses| - 1].id in UseIDs(uses);
      UnansweredSame(uses[..|uses| - 1], a, b);
    }
  }

  lemma {:induction false} NoDupConcat(a: seq<string>, b: seq<string>)
    requires NoDup(a) && forall x :: x in a ==> x !in b
    ensures NoDup(a + b) <==> NoDup(b)
  {
    assert forall i :: 0 <= i < |b| ==> (a + b)[|a| + i] == b[i];
    forall i, j | 0 <= i < |a| && |a| <= j < |a + b|
      ensures (a + b)[i] != (a + b)[j]
    {
      assert a[i] in a && b[j - |a|] in b;
    }
    if NoDup(b) {
      forall i, j | 0 <= i < j < |a + b|
        ensures (a + b)[i] != (a + b)[j]
      {
        if i >= |a| { assert b[i - |a|] != b[j - |a|]; }
      }
    }
  }

  /** One message with its run comes out complete, unless a use id is unanswered twice. */
  lemma {:induction false} RunComplete(m: Message, run: seq<Message>)
    requires AllTool(run)
    ensures AllResults(RepairRun(m, run))
    ensures Complete(UsesOf(m), RepairRun(m, run)) <==> NoDup(Unanswered(UsesOf(m), ResultIDs(run)))
  {
    hide UsesOf, Kept, Missing, ResultIDs, Unanswered, UseIDs;
    var uses := UsesOf(m);
    var kept := Kept(UseIDs(uses), run);
    var missing := Missing(uses, ResultIDs(kept));
    KeptIDs(UseIDs(uses), run);
    MissingIDs(uses, ResultIDs(kept));
    ResultIDsConcat(kept, missing);
    UnansweredSame(uses, ResultIDs(kept), ResultIDs(run));
    NoDupConcat(ResultIDs(kept), ResultIDs(missing));
  }

  // ----- Whole transcripts, one message and its results at a time -----

  predicate Cut(rest: seq<Message>) {
    rest == [] || !rest[0].role.Tool?
  }

  lemma {:induction false} ToolRunOf(run: seq<Message>, rest: seq<Message>)
    requires AllTool(run) && Cut(rest)
    ensures ToolRun(run + rest) == run
  {
    var all := run + rest;
    if run == [] {
      assert all == rest;
    } else {
      ToolRunOf(run[1..], rest);
      assert all[1..] == run[1..] + rest;
    }
  }

  lemma {:induction false} AdjacentGroup(m: Message, run: seq<Message>, rest: seq<Message>)
    requires !m.role.Tool? && AllTool(run) && Cut(rest)
    ensures Adjacent([m] + run + rest) <==> Complete(UsesOf(m), run) && Adjacent(rest)
  {
    hide Complete, UsesOf;
    var ms := [m] + run + rest;
    assert ms[0] == m && ms[1..] == run + rest;
    ToolRunOf(run, rest);
    assert ms[1..][|run|..] == rest;
  }

  lemma {:induction false} RepairGroup(m: Message, run: seq<Message>, rest: seq<Message>)
    requires !m.role.Tool? && AllTool(run) && Cut(rest)
    ensures Repair([m] + run + rest) == [m] + RepairRun(m, run) + Repair(rest)
    ensures Repairable([m] + run + rest) <==> NoDup(Unanswered(UsesOf(m), ResultIDs(run))) && Repairable(rest)
  {
    hide RepairRun, UsesOf, NoDup;
    var ms := [m] + run + rest;
    assert ms[0] == m && ms[1..] == run + rest;
    ToolRunOf(run, rest);
    assert ms[1..][|run|..] == rest;
  }

  /** The results a transcript starts with, and the rest. */
  lemma {:induction false} SplitRun(ms: seq<Message>) returns (run: seq<Message>, rest: seq<Message>)
    ensures ms == run + rest && AllTool(run) && Cut(rest)
  {
    run := ToolRun(ms);
    rest := ms[|run|..];
    hide ToolRun;
  }

  /** A transcript that starts with a message other than a result, taken apart. */
  lemma {:induction false} Group(ms: seq<Message>) returns (m: Message, run: seq<Message>, rest: seq<Message>)
    requires ms != [] && !ms[0].role.Tool?
    ensures !m.role.Tool? && AllTool(run) && Cut(rest) && ms == [m] + run + rest && m == ms[0]
  {
    hide *;
    m := ms[0];
    run, rest := SplitRun(ms[1..]);
    assert ms == [m] + ms[1..] && [m] + (run + rest) == [m] + run + rest;
  }

  lemma {:induction false} RepairStarts(ms: seq<Message>)
    ensures Cut(Repair(ms))
    decreases |ms|
  {
    if ms != [] && ms[0].role.Tool? {
      RepairStarts(ms[1..]);
    }
  }

  /** The repaired transcript is acceptable exactly when no message leaves one id unanswered twice. */
  lemma {:induction false} RepairedIffRepairable(ms: seq<Message>)
    ensures Adjacent(Repair(ms)) <==> Repairable(ms)
    decreases |ms|
  {
    if ms != [] {
      if ms[0].role.Tool? {
        RepairedIffRepairable(ms[1..]);
      } else {
        hide Repair, Repairable, Adjacent, Complete, RepairRun, UsesOf, NoDup, Cut;
        var m, run, rest := Group(ms);
        RepairedIffRepairable(rest);
        RunComplete(m, run);
        RepairStarts(rest);
        RepairGroup(m, run, rest);
        AdjacentGroup(m, RepairRun(m, run), Repair(rest));
      }
    }
  }

  lemma {:induction false} ResultIn(run: seq<Message>, i: nat)
    requires AllResults(run) && i < |run|
    ensures |ResultIDs(run)| == |run| && ResultIDs(run)[i] == run[i].result.value.toolUseID
    decreases |run|
  {
    var n := |run| - 1;
    if n > 0 {
      ResultIn(run[..n], if i < n then i else 0);
    }
  }

  lemma {:induction false} SplitNoDup(ids: seq<string>, id: string)
    requires NoDup(ids + [id])
    ensures NoDup(ids) && id !in ids && id in ids + [id]
  {
    var all := ids + [id];
    assert all[|ids|] == id && forall i :: 0 <= i < |ids| ==> all[i] == ids[i];
  }

  lemma {:induction false} AllKept(known: seq<string>, run: seq<Message>)
    requires AllResults(run) && NoDup(ResultIDs(run))
    requires forall id :: id in ResultIDs(run) ==> id != "" && id in known
    ensures Kept(known, run) == run
    decreases |run|
  {
    if run != [] {
      hide ResultIDs, Kept, NoDup;
      var n := |run| - 1;
      var front, m := run[..n], run[n];
      var id := m.result.value.toolUseID;
      assert run == front + [m];
      IDsSnoc(front, m);
      SplitNoDup(ResultIDs(front), id);
      assert forall x :: x in ResultIDs(front) ==> x in ResultIDs(run);
      AllKept(known, front);
      KeptSnoc(known, front, m);
    }
  }

  lemma {:induction false} NoneMissing(uses: seq<ToolUse>, seen: seq<string>)
    requires forall id :: id != "" && id in UseIDs(uses) ==> id in seen
    ensures Missing(uses, seen) == []
    decreases |uses|
  {
    if uses != [] {
      assert uses[|uses| - 1].id in UseIDs(uses);
      NoneMissing(uses[..|uses| - 1], seen);
    }
  }

  /** An acceptable transcript is left as it is, so repairing twice is repairing once. */
  lemma {:induction false} RepairKeepsAdjacent(ms: seq<Message>)
    requires Adjacent(ms)
    ensures Repair(ms) == ms
    decreases |ms|
  {
    if ms != [] {
      hide Repair, UsesOf, NoDup, Cut, Kept, Missing, ResultIDs, UseIDs;
      var m, run, rest := Group(ms);
      hide Adjacent;
      AdjacentGroup(m, run, rest);
      RepairKeepsAdjacent(rest);
      RepairGroup(m, run, rest);
      AllKept(UseIDs(UsesOf(m)), run);
      NoneMissing(UsesOf(m), ResultIDs(run));
      assert run + [] == run;
    }
  }

  /** Two uses of one message with the same unanswered id both get a synthetic result. */
  lemma {:induction false} DuplicateUnanswered(use: ToolUse, m: Message)
    requires use.id != "" && m.role.Assistant? && m.content == [Use(use), Use(use)]
    ensures !Adjacent(Repair([m]))
  {
    var content := m.content;
    assert content[..1] == [Use(use)] && [Use(use)][..0] == [];
    assert Uses([Use(use)]) == [use] && Uses(content) == [use, use];
    assert [use, use][..1] == [use] && [use][..0] == [];
    assert Unanswered([use], []) == [use.id] && Unanswered([use, use], []) == [use.id, use.id];
    assert [m] == [m] + [] + [];
    RepairGroup(m, [], []);
    assert [use.id, use.id][0] == [use.id, use.id][1];
    RepairedIffRepairable([m]);
  }

  // ----- Which results stand behind a message -----

  predicate Rising(at: seq<nat>) {
    forall i, j :: 0 <= i < j < |at| ==> at[i] < at[j]
  }

  /** Result i of a run is the first one for a use of the message. */
  predicate FirstFor(known: seq<string>, run: seq<Message>, i: nat)
    requires i < |run|
  {
    && run[i].result.Some? && run[i].result.value.toolUseID != "" && run[i].result.value.toolUseID in known
    && run[i].result.value.toolUseID !in ResultIDs(run[..i])
  }

  /** The messages are those of the run at the given places. */
  ghost predicate Picked<T>(from: seq<T>, at: seq<nat>, out: seq<T>) {
    |out| == |at| && Rising(at) && forall k :: 0 <= k < |at| ==> at[k] < |from| && out[k] == from[at[k]]
  }

  lemma {:induction false} PickedMore<T>(from: seq<T>, at: seq<nat>, out: seq<T>, x: T)
    requires Picked(from, at, out)
    ensures Picked(from + [x], at, out) && Picked(from + [x], at + [|from|], out + [x])
    ensures forall i :: i in at ==> i < |from|
  {
  }

  /** The recorded results that are kept, as they are and in order, are the first ones for the uses of the message. */
  lemma {:induction false} KeptAreFirsts(known: seq<string>, run: seq<Message>) returns (at: seq<nat>)
    requires AllTool(run)
    ensures Picked(run, at, Kept(known, run))
    ensures forall i: nat :: i < |run| ==> (i in at <==> FirstFor(known, run, i))
    decreases |run|
  {
    hide ResultIDs, Kept, Picked, AllTool;
    if run == [] {
      NothingKept(known);
      at := [];
      assert Picked(run, [], []) by { NothingPicked(run); }
    } else {
      var n := |run| - 1;
      var front, m := run[..n], run[n];
      assert run == front + [m];
      assert AllTool(front) by { FrontIsTool(run); }
      at := KeptAreFirsts(known, front);
      var kept := Kept(known, front);
      KeptIDs(known, front);
      KeptSnoc(known, front, m);
      PickedMore(front, at, kept, m);
      forall i: nat | i < n
        ensures FirstFor(known, run, i) <==> FirstFor(known, front, i)
      {
        assert run[..i] == front[..i];
      }
      assert Keeps(known, kept, m) <==> FirstFor(known, run, n);
      if Keeps(known, kept, m) {
        at := at + [n];
      }
    }
  }

  lemma {:induction false} NothingPicked<T>(from: seq<T>)
    ensures Picked(from, [], [])
  {
  }

  lemma {:induction false} FrontIsTool(run: seq<Message>)
    requires run != [] && AllTool(run)
    ensures AllTool(run[..|run| - 1])
  {
  }

  /** The messages are made up for the uses at the given places. */
  ghost predicate MadeUp(uses: seq<ToolUse>, at: seq<nat>, made: seq<Message>) {
    |made| == |at| && Rising(at) && forall k :: 0 <= k < |at| ==> at[k] < |uses| && made[k] == Interrupted(uses[at[k]])
  }

  lemma {:induction false} MadeUpMore(uses: seq<ToolUse>, at: seq<nat>, made: seq<Message>, use: ToolUse)
    requires MadeUp(uses, at, made)
    ensures MadeUp(uses + [use], at, made + []) && MadeUp(uses + [use], at + [|uses|], made + [Interrupted(use)])
    ensures forall i :: i in at ==> i < |uses|
  {
    hide Interrupted;
  }

  lemma {:induction false} NothingMadeUp(seen: seq<string>)
    ensures Missing([], seen) == [] && MadeUp([], [], [])
  {
  }

  /** Then come the results made up, in the order of the uses that no recorded result answers. */
  lemma {:induction false} MissingAreUnanswered(uses: seq<ToolUse>, seen: seq<string>) returns (at: seq<nat>)
    ensures MadeUp(uses, at, Missing(uses, seen))
    ensures forall i: nat :: i < |uses| ==> (i in at <==> IsMissing(uses[i], seen))
    decreases |uses|
  {
    hide Interrupted, Missing, Unanswered, MadeUp, IsMissing;
    if uses == [] {
      NothingMadeUp(seen);
      at := [];
    } else {
      var front, use := uses[..|uses| - 1], uses[|uses| - 1];
      assert uses == front + [use];
      at := MissingAreUnanswered(front, seen);
      MissingSnoc(front, use, seen);
      MadeUpMore(front, at, Missing(front, seen), use);
      if IsMissing(use, seen) {
        at := at + [|front|];
      }
    }
  }

  /**
    Wherever a message stands with a run of results behind it, the repair puts behind it the first
    recorded result for each of its uses, as they are and in order, and then a made-up one for each use
    that has none.
   */
  lemma {:induction false} GroupRepaired(m: Message, run: seq<Message>, rest: seq<Message>) returns (at: seq<nat>, missing: seq<nat>)
    requires !m.role.Tool? && AllTool(run) && Cut(rest)
    ensures var uses := UsesOf(m);
            exists kept, made ::
              && Repair([m] + run + rest) == [m] + (kept + made) + Repair(rest)
              && Picked(run, at, kept) && MadeUp(uses, missing, made)
    ensures forall i: nat :: i < |run| ==> (i in at <==> FirstFor(UseIDs(UsesOf(m)), run, i))
    ensures forall i: nat :: i < |UsesOf(m)| ==>
              (i in missing <==> UsesOf(m)[i].id != "" && UsesOf(m)[i].id !in ResultIDs(run))
  {
    hide ResultIDs, Kept, Picked, UseIDs, UsesOf, Interrupted, Missing, Repair, Cut, FirstFor, NoDup, AllResults, MadeUp;
    var uses := UsesOf(m);
    var known := UseIDs(uses);
    var kept := Kept(known, run);
    RepairGroup(m, run, rest);
    KeptIDs(known, run);
    at := KeptAreFirsts(known, run);
    missing := MissingAreUnanswered(uses, ResultIDs(kept));
    forall i: nat | i < |uses|
      ensures uses[i].id in known
    {
      UseIDAt(uses, i);
    }
  }

  lemma {:induction false} UseIDAt(uses: seq<ToolUse>, i: nat)
    requires i < |uses|
    ensures uses[i].id in UseIDs(uses)
    decreases |uses|
  {
    if i < |uses| - 1 {
      UseIDAt(uses[..|uses| - 1], i);
    }
  }

  // ----- Everything but tool messages is kept, in order -----

  function NonTool(ms: seq<Message>): seq<Message> {
    if ms == [] then [] else (if ms[0].role.Tool? then [] else [ms[0]]) + NonTool(ms[1..])
  }

  lemma {:induction false} NonToolConcat(run: seq<Message>, rest: seq<Message>)
    requires AllTool(run)
    ensures NonTool(run + rest) == NonTool(rest)
  {
    if run == [] {
      assert run + rest == rest;
    } else {
      NonToolConcat(run[1..], rest);
      assert (run + rest)[1..] == run[1..] + rest;
    }
  }

  lemma {:induction false} NonToolGroup(m: Message, run: seq<Message>, rest: seq<Message>)
    requires !m.role.Tool? && AllTool(run)
    ensures NonTool([m] + run + rest) == [m] + NonTool(rest)
  {
    NonToolConcat(run, rest);
    var ms := [m] + run + rest;
    assert ms[0] == m && ms[1..] == run + rest;
  }

  lemma {:induction false} RepairKeepsNonTool(ms: seq<Message>)
    ensures NonTool(Repair(ms)) == NonTool(ms)
    decreases |ms|
  {
    if ms != [] {
      if ms[0].role.Tool? {
        RepairKeepsNonTool(ms[1..]);
      } else {
        hide Repair, RepairRun, Cut, Repairable, Complete, NonTool;
        var m, run, rest := Group(ms);
        RepairKeepsNonTool(rest);
        RunComplete(m, run);
        RepairGroup(m, run, rest);
        NonToolGroup(m, run, rest);
        NonToolGroup(m, RepairRun(m, run), Repair(rest));
      }
    }
  }

  // ----- The loops -----

  /** RepairToolUseAdjacency */
  method RepairToolUseAdjacency(messages: seq<Message>) returns (out: seq<Message>)
    ensures out == Repair(messages)
  {
    out := [];
    var i := 0;
    assert messages[0..] == messages;
    while i < |messages|
      invariant 0 <= i <= |messages|
      invariant Repair(messages) == out + Repair(messages[i..])
    {
      hide RepairRun;
      var msg := messages[i];
      assert messages[i..][0] == msg && messages[i..][1..] == messages[i + 1..];
      if msg.role.Tool? {
        i := i + 1;
        continue;
      }
      var results, j := RepairOne(messages, i);
      Regroup(out, [msg], results, Repair(messages[j..]));
      out := out + [msg] + results;
      i := j;
    }
  }

  /** The results behind message i, and the index of the next message that is not a result. */
  method RepairOne(messages: seq<Message>, i: nat) returns (results: seq<Message>, j: nat)
    requires i < |messages|
    ensures results == RepairRun(messages[i], ToolRun(messages[i + 1..]))
    ensures i < j <= |messages| && messages[j..] == messages[i + 1..][|ToolRun(messages[i + 1..])|..]
  {
    hide UsesOf, UseIDs, Interrupted, ResultIDs;
    var uses := UsesOf(messages[i]);
    var known := UseIDs(uses);
    ghost var tail := messages[i + 1..];
    ghost var run := ToolRun(tail);
    var kept: seq<Message>;
    kept, j := KeepResults(messages, i + 1, known);
    results := kept;
    for k := 0 to |uses|
      invariant results == kept + Missing(uses[..k], ResultIDs(kept))
    {
      assert uses[..k + 1][..k] == uses[..k];
      if uses[k].id != "" && uses[k].id !in ResultIDs(kept) {
        results := results + [Interrupted(uses[k])];
      }
    }
    assert uses[..|uses|] == uses;
  }

  /** The inner loop over the results from index first on. */
  method KeepResults(messages: seq<Message>, first: nat, known: seq<string>) returns (kept: seq<Message>, j: nat)
    requires first <= |messages|
    ensures kept == Kept(known, ToolRun(messages[first..]))
    ensures first <= j <= |messages| && messages[j..] == messages[first..][|ToolRun(messages[first..])|..]
  {
    hide ResultIDs, Keeps, Kept, ToolRun;
    ghost var run := ToolRun(messages[first..]);
    RunBounds(messages, first);
    NothingKept(known);
    kept, j := [], first;
    while j < |messages| && messages[j].role.Tool?
      invariant first <= j <= first + |run|
      invariant kept == Kept(known, run[..j - first])
    {
      assert run[..j - first + 1] == run[..j - first] + [messages[j]];
      KeptSnoc(known, run[..j - first], messages[j]);
      if Keeps(known, kept, messages[j]) {
        kept := kept + [messages[j]];
      }
      j := j + 1;
    }
    assert run[..|run|] == run;
  }

  /** Where the run of results from an index on ends. */
  lemma {:induction false} RunBounds(messages: seq<Message>, first: nat)
    requires first <= |messages|
    ensures var run := ToolRun(messages[first..]);
            && first + |run| <= |messages|
            && (forall k :: 0 <= k < |run| ==> run[k] == messages[first + k] && run[k].role.Tool?)
            && (first + |run| < |messages| ==> !messages[first + |run|].role.Tool?)
            && messages[first..][|run|..] == messages[first + |run|..]
  {
    hide ToolRun;
    var tail := messages[first..];
    var run := ToolRun(tail);
    assert forall k :: 0 <= k < |run| ==> run[k] == tail[k];
  }
}
