/** contextwindow/policy.go, PreserveImportant: putting back important tool results that a policy dropped. */
module Retention {
  import opened Wrappers
  import opened Transcript
  import opened ContextWindow
  import C = AssistantContent

  /** importantMessage */
  predicate Important(m: Message) {
    && m.result.Some?
    && var r := m.result.value;
       r.isError || r.marks.retention == "important" || r.marks.loadedSkill || r.marks.storedID != "" || r.marks.storedURI != ""
  }

  /** A result is retained exactly when it is an error or bears a mark other than a retention that is not "important". */
  lemma {:induction false} ImportantIff(m: Message, marks: Marks)
    requires m.result.Some? ==> marks == m.result.value.marks
    ensures Important(m) <==>
            m.result.Some? && (m.result.value.isError || marks.retention == "important" || marks.(retention := "") != NO_MARKS)
  {
  }

  /** The messages start, …, end - 1 of a transcript. */
  datatype Span = Span(start: nat, end: nat)

  function Size(spans: seq<Span>): int {
    if spans == [] then 0 else spans[0].end - spans[0].start + Size(spans[1..])
  }

  // ----- The message that made the call -----

  /** The loop of matchingToolUseMessage from index before - 1 down. */
  function MatchBelow(ms: seq<Message>, before: nat, id: string): (r: Option<nat>)
    requires before <= |ms|
    ensures r.Some? ==> r.value < before && ms[r.value].role.Assistant?
    decreases before
  {
    if before == 0 || ms[before - 1].role.User? then None
    else if ms[before - 1].role.Assistant? && HasToolUse(ms[before - 1], id) then Some(before - 1)
    else MatchBelow(ms, before - 1, id)
  }

  /** The group kept for message i: the call, if it can be found, up to the message. */
  function SpanOf(ms: seq<Message>, i: nat): (s: Span)
    requires i < |ms|
    ensures s.start <= i && s.end == i + 1
  {
    if ms[i].result.None? || ms[i].result.value.toolUseID == "" then Span(i, i + 1)
    else
      match MatchBelow(ms, i, ms[i].result.value.toolUseID)
      case None => Span(i, i + 1)
      case Some(j) => Span(j, i + 1)
  }

  predicate IsSpan(ms: seq<Message>, s: Span) {
    s.start < s.end <= |ms| && Important(ms[s.end - 1]) && s == SpanOf(ms, s.end - 1)
  }

  predicate AreSpans(ms: seq<Message>, spans: seq<Span>) {
    forall i :: 0 <= i < |spans| ==> IsSpan(ms, spans[i])
  }

  /** The groups of the important ones among the first k messages. */
  function Spans(ms: seq<Message>, k: nat): (spans: seq<Span>)
    requires k <= |ms|
    ensures AreSpans(ms, spans)
  {
    if k == 0 then []
    else Spans(ms, k - 1) + (if Important(ms[k - 1]) then [SpanOf(ms, k - 1)] else [])
  }

  /** matchingToolUseMessage */
  method MatchingToolUseMessage(ms: seq<Message>, before: nat, id: string) returns (r: Option<nat>)
    requires before <= |ms|
    ensures r == if id == "" then None else MatchBelow(ms, before, id)
  {
    if id == "" {
      return None;
    }
    var i := before;
    while i > 0
      invariant 0 <= i <= before
      invariant MatchBelow(ms, before, id) == MatchBelow(ms, i, id)
    {
      i := i - 1;
      if ms[i].role.User? {
        return None;
      }
      if !ms[i].role.Assistant? {
        continue;
      }
      if HasToolUse(ms[i], id) {
        return Some(i);
      }
    }
    return None;
  }

  /** Where the call of a result stands: at j, or before the messages when j is -1. */
  lemma {:induction false} NearestCaller(ms: seq<Message>, caller: Option<Message>, i: nat) returns (j: int)
    requires OrphanFree(ms, caller) && i < |ms| && ms[i].role.Tool?
    ensures -1 <= j < i && forall k :: j < k <= i ==> ms[k].role.Tool?
    ensures if j >= 0 then Calls(ms[j], ms[i]) else caller.Some? && Calls(caller.value, ms[i])
  {
    hide Calls;
    if i == 0 {
      j := -1;
    } else {
      var j' := NearestCaller(ms[1..], if ms[0].role.Tool? then caller else Some(ms[0]), i - 1);
      j := if j' == -1 && ms[0].role.Tool? then -1 else j' + 1;
      forall k | j < k <= i
        ensures ms[k].role.Tool?
      {
        if k > 0 { assert ms[1..][k - 1] == ms[k]; }
      }
    }
  }

  lemma {:induction false} MatchAcrossResults(ms: seq<Message>, j: nat, before: nat, id: string)
    requires j < before <= |ms| && ms[j].role.Assistant? && HasToolUse(ms[j], id)
    requires forall k :: j < k < before ==> ms[k].role.Tool?
    ensures MatchBelow(ms, before, id) == Some(j)
    decreases before
  {
    if before > j + 1 {
      MatchAcrossResults(ms, j, before - 1, id);
    }
  }

  /** A kept group has no orphan exactly when a result it is kept for carries an id. */
  lemma {:induction false} GroupOrphanFree(ms: seq<Message>, i: nat)
    requires OrphanFree(ms, None) && i < |ms|
    ensures var s := SpanOf(ms, i);
            OrphanFree(ms[s.start..s.end], None) <==>
            (ms[i].role.Tool? ==> ms[i].result.Some? && ms[i].result.value.toolUseID != "")
  {
    var s := SpanOf(ms, i);
    if ms[i].role.Tool? {
      var j := NearestCaller(ms, None, i);
      if ms[i].result.Some? && ms[i].result.value.toolUseID != "" {
        MatchAcrossResults(ms, j, i, ms[i].result.value.toolUseID);
      }
    }
    if !ms[s.start].role.Tool? {
      hide OrphanFree;
      SuffixOrphanFree(ms, None, s.start);
      PrefixOrphanFree(ms[s.start..], None, s.end - s.start);
      assert ms[s.start..][..s.end - s.start] == ms[s.start..s.end];
    }
  }

  // ----- importantGroups -----

  /** The newest groups that the limit allows: all of them, or as many as fit, or the newest alone. */
  ghost predicate NewestGroups(all: seq<Span>, chosen: seq<Span>, max: int) {
    && |chosen| <= |all| && chosen == all[|all| - |chosen|..]
    && (all != [] ==> chosen != [])
    && (Size(chosen) <= max || |chosen| == 1)
    && (|chosen| < |all| ==> Size(all[|all| - |chosen| - 1..]) > max || Size(chosen) >= max)
  }

  /** importantGroups for a positive limit */
  method ImportantGroups(ms: seq<Message>, max: int) returns (chosen: seq<Span>)
    requires max > 0
    ensures NewestGroups(Spans(ms, |ms|), chosen, max)
  {
    var spans := [];
    for i := 0 to |ms|
      invariant spans == Spans(ms, i)
    {
      if Important(ms[i]) {
        var start := i;
        if ms[i].result.Some? {
          var assistant := MatchingToolUseMessage(ms, i, ms[i].result.value.toolUseID);
          if assistant.Some? {
            start := assistant.value;
          }
        }
        spans := spans + [Span(start, i + 1)];
      }
    }
    assert forall i :: 0 <= i < |spans| ==> IsSpan(ms, spans[i]);
    chosen := TakeNewest(spans, max);
  }

  /** The selection loop of importantGroups. */
  method TakeNewest(spans: seq<Span>, max: int) returns (chosen: seq<Span>)
    requires max > 0 && forall i :: 0 <= i < |spans| ==> spans[i].start < spans[i].end
    ensures NewestGroups(spans, chosen, max)
  {
    var count, k := 0, |spans|;
    assert spans[|spans|..] == [];
    while k > 0
      invariant 0 <= k <= |spans| && count == Size(spans[k..])
      invariant (k == |spans| && count == 0) || (k < |spans| && 0 < count < max)
    {
      var size := spans[k - 1].end - spans[k - 1].start;
      assert spans[k - 1..][1..] == spans[k..];
      if count > 0 && count + size > max {
        break;
      }
      k := k - 1;
      count := count + size;
      if count >= max {
        break;
      }
    }
    chosen := spans[k..];
  }

  // ----- Which groups are already there -----

  function RoleName(role: Role): string {
    match role
    case System => "system"
    case User => "user"
    case Assistant => "assistant"
    case Tool => "tool"
  }

  function UseNames(uses: seq<ToolUse>): string {
    if uses == [] then ""
    else
      var last := uses[|uses| - 1];
      (if |uses| == 1 then "" else UseNames(uses[..|uses| - 1]) + ",") + last.id + ":" + last.name
  }

  /** messageSignature */
  function Signature(m: Message): string {
    if m.id != "" then "id:" + m.id
    else if m.result.Some? then "tool:" + m.result.value.toolUseID + ":" + m.result.value.name
    else if Uses(m.content) != [] then "assistant_tool_use:" + UseNames(Uses(m.content))
    else RoleName(m.role) + ":" + C.Plain(m.content)
  }

  lemma {:induction false} SamePrefix(p: string, x: string, y: string)
    ensures p + x == p + y <==> x == y
  {
    assert (p + x)[|p|..] == x && (p + y)[|p|..] == y;
  }

  lemma {:induction false} Apart(p: string, x: string, q: string, y: string, k: nat)
    requires k < |p| && k < |q| && p[k] != q[k]
    ensures p + x != q + y
  {
    assert (p + x)[k] == p[k] && (q + y)[k] == q[k];
  }

  predicate HoldsUses(m: Message) {
    m.result.None? && Uses(m.content) != []
  }

  predicate HoldsText(m: Message) {
    m.result.None? && Uses(m.content) == []
  }

  function ResultName(m: Message): string
    requires m.result.Some?
  {
    m.result.value.toolUseID + ":" + m.result.value.name
  }

  /** What a signature starts with, and what follows. */
  function Head(m: Message): string {
    if m.id != "" then "id:"
    else if m.result.Some? then "tool:"
    else if Uses(m.content) != [] then "assistant_tool_use:"
    else RoleName(m.role) + ":"
  }

  function Tail(m: Message): string {
    if m.id != "" then m.id
    else if m.result.Some? then ResultName(m)
    else if Uses(m.content) != [] then UseNames(Uses(m.content))
    else C.Plain(m.content)
  }

  lemma {:induction false} SignatureParts(m: Message)
    ensures Signature(m) == Head(m) + Tail(m)
  {
    hide UseNames, RoleName, Uses, C.Plain;
    if m.result.Some? {
      var x, y := m.result.value.toolUseID, m.result.value.name;
      assert "tool:" + x + ":" + y == "tool:" + (x + ":" + y);
    }
  }

  lemma {:induction false} RoleHeads(role: Role)
    ensures var h := RoleName(role) + ":";
            match role
            case System => h == "system:" case User => h == "user:" case Assistant => h == "assistant:" case Tool => h == "tool:"
  {
  }

  /** The starts of signatures, told by their first and tenth characters. */
  lemma {:induction false} HeadForms(m: Message)
    ensures var h := Head(m);
            && h != ""
            && (h[0] == 'i' <==> m.id != "")
            && (h[0] == 't' <==> m.id == "" && (m.result.Some? || (HoldsText(m) && m.role.Tool?)))
            && (h[0] == 's' <==> m.id == "" && HoldsText(m) && m.role.System?)
            && (h[0] == 'u' <==> m.id == "" && HoldsText(m) && m.role.User?)
            && (h[0] == 'a' <==> m.id == "" && (HoldsUses(m) || (HoldsText(m) && m.role.Assistant?)))
            && (h[0] == 'a' ==> |h| > 9 && (h[9] == '_' <==> HoldsUses(m)) && (h[9] == ':' <==> HoldsText(m)))
  {
    hide Uses, RoleName;
    RoleHeads(m.role);
  }

  /** The two are named by the same kind of thing; a tool message without a result is named like one with a result. */
  predicate SameKind(a: Message, b: Message) {
    if a.id != "" || b.id != "" then a.id != "" && b.id != ""
    else if a.result.Some? then b.result.Some? || (HoldsText(b) && b.role.Tool?)
    else if b.result.Some? then HoldsText(a) && a.role.Tool?
    else if HoldsUses(a) || HoldsUses(b) then HoldsUses(a) && HoldsUses(b)
    else a.role == b.role
  }

  lemma {:induction false} SameHeads(a: Message, b: Message)
    requires SameKind(a, b)
    ensures Head(a) == Head(b)
  {
    hide Uses, RoleName;
    RoleHeads(a.role);
    RoleHeads(b.role);
  }

  lemma {:induction false} OtherHeads(a: Message, b: Message, x: string, y: string)
    requires !SameKind(a, b)
    ensures Head(a) + x != Head(b) + y
  {
    HeadForms(a);
    HeadForms(b);
    assert HoldsText(a) == (a.result.None? && !HoldsUses(a)) && HoldsText(b) == (b.result.None? && !HoldsUses(b));
    hide Uses, RoleName, Head, HoldsUses, HoldsText;
    if Head(a)[0] != Head(b)[0] {
      Apart(Head(a), x, Head(b), y, 0);
    } else {
      Apart(Head(a), x, Head(b), y, 9);
    }
  }

  /**
    Two messages count as one when they have one id; without ids, when they are results of one use, or
    calls of the same uses, or one role says the same text. A tool message without a result counts as a
    result when its text reads like one.
   */
  lemma {:induction false} SameSignatureIff(a: Message, b: Message)
    ensures Signature(a) == Signature(b) <==> SameKind(a, b) && Tail(a) == Tail(b)
  {
    hide *;
    SignatureParts(a);
    SignatureParts(b);
    if SameKind(a, b) {
      SameHeads(a, b);
      SamePrefix(Head(a), Tail(a), Tail(b));
    } else {
      OtherHeads(a, b, Tail(a), Tail(b));
    }
  }

  predicate MatchesAt(group: seq<Message>, ms: seq<Message>, start: nat) {
    start + |group| <= |ms| && forall i :: 0 <= i < |group| ==> Signature(group[i]) == Signature(ms[start + i])
  }

  /** messageGroupContained */
  method MessageGroupContained(group: seq<Message>, ms: seq<Message>) returns (b: bool)
    ensures b <==> exists start: nat :: MatchesAt(group, ms, start)
  {
    hide Signature;
    if |group| == 0 {
      assert MatchesAt(group, ms, 0);
      return true;
    }
    if |group| > |ms| {
      return false;
    }
    for start := 0 to |ms| - |group| + 1
      invariant forall s: nat :: s < start ==> !MatchesAt(group, ms, s)
    {
      var matches := true;
      var i := 0;
      while i < |group| && matches
        invariant 0 <= i <= |group|
        invariant matches ==> forall k :: 0 <= k < i ==> Signature(group[k]) == Signature(ms[start + k])
        invariant !matches ==> !MatchesAt(group, ms, start)
      {
        if Signature(group[i]) != Signature(ms[start + i]) {
          matches := false;
        }
        i := i + 1;
      }
      if matches {
        assert MatchesAt(group, ms, start);
        return true;
      }
    }
    return false;
  }

  // ----- PreserveImportantMessages -----

  const DEFAULT_MAX_MESSAGES := 8

  function Limit(maxMessages: int): int {
    if maxMessages == 0 then DEFAULT_MAX_MESSAGES else maxMessages
  }

  /** Every tool result carries the id of its use. */
  predicate IdsPresent(ms: seq<Message>) {
    forall i :: 0 <= i < |ms| && ms[i].role.Tool? ==> ms[i].result.Some? && ms[i].result.value.toolUseID != ""
  }

  ghost predicate Contained(group: seq<Message>, ms: seq<Message>) {
    exists start: nat :: MatchesAt(group, ms, start)
  }

  /** The groups that are not contained in selected, one after the other. */
  ghost function Added(original: seq<Message>, selected: seq<Message>, groups: seq<Span>): seq<Message>
    requires AreSpans(original, groups)
  {
    if groups == [] then []
    else
      var n := |groups| - 1;
      var group := original[groups[n].start..groups[n].end];
      Added(original, selected, groups[..n]) + (if Contained(group, selected) then [] else group)
  }

  lemma {:induction false} ContainedWithin(group: seq<Message>, a: seq<Message>, b: seq<Message>, c: seq<Message>)
    requires Contained(group, b)
    ensures Contained(group, a + b + c)
  {
    hide Signature;
    var start: nat :| MatchesAt(group, b, start);
    assert forall k :: 0 <= k < |group| ==> Signature(group[k]) == Signature((a + b + c)[|a| + start + k]);
    assert MatchesAt(group, a + b + c, |a| + start);
  }

  lemma {:induction false} ContainsItself(group: seq<Message>)
    ensures Contained(group, group)
  {
    hide Signature;
    assert MatchesAt(group, group, 0);
  }

  /** Every group is in the output, once it is prepended or because it was there. */
  lemma {:induction false} GroupsPresent(original: seq<Message>, selected: seq<Message>, groups: seq<Span>, i: nat)
    requires AreSpans(original, groups) && i < |groups|
    ensures Contained(original[groups[i].start..groups[i].end], Added(original, selected, groups) + selected)
    decreases |groups|
  {
    hide MatchesAt, SpanOf, Important, Contained;
    var group := original[groups[i].start..groups[i].end];
    var added := Added(original, selected, groups);
    if Contained(group, selected) {
      ContainedWithin(group, added, selected, []);
      assert added + selected + [] == added + selected;
    } else {
      InAdded(original, selected, groups, i);
      ContainedWithin(group, [], added, selected);
      assert [] + added + selected == added + selected;
    }
  }

  lemma {:induction false} InAdded(original: seq<Message>, selected: seq<Message>, groups: seq<Span>, i: nat)
    requires AreSpans(original, groups) && i < |groups|
    requires !Contained(original[groups[i].start..groups[i].end], selected)
    ensures Contained(original[groups[i].start..groups[i].end], Added(original, selected, groups))
    decreases |groups|
  {
    hide MatchesAt, SpanOf, Important, Contained;
    var n := |groups| - 1;
    var group := original[groups[i].start..groups[i].end];
    var front := Added(original, selected, groups[..n]);
    if i == n {
      ContainsItself(group);
      ContainedWithin(group, front, group, []);
      assert front + group + [] == Added(original, selected, groups);
    } else {
      InAdded(original, selected, groups[..n], i);
      var last := Added(original, selected, groups)[|front|..];
      ContainedWithin(group, [], front, last);
      assert [] + front + last == Added(original, selected, groups);
    }
  }

  lemma {:induction false} AddedStep(original: seq<Message>, selected: seq<Message>, groups: seq<Span>, i: nat)
    requires AreSpans(original, groups) && i < |groups|
    ensures var group := original[groups[i].start..groups[i].end];
            Added(original, selected, groups[..i + 1]) ==
            Added(original, selected, groups[..i]) + (if Contained(group, selected) then [] else group)
  {
    hide IsSpan, Contained;
    assert groups[..i + 1][..i] == groups[..i];
  }

  /** The loop of PreserveImportantMessages. */
  method PrependGroups(original: seq<Message>, selected: seq<Message>, groups: seq<Span>) returns (kept: seq<Message>)
    requires AreSpans(original, groups)
    ensures kept == Added(original, selected, groups) && |kept| <= Size(groups)
    ensures OrphanFree(original, None) && IdsPresent(original) ==> OrphanFree(kept, None)
  {
    hide OrphanFree, SpanOf, Important, Added, MatchesAt;
    assert Added(original, selected, groups[..0]) == [] by { NoneAdded(original, selected); }
    kept := [];
    EmptyOrphanFree();
    ghost var sound := OrphanFree(original, None) && IdsPresent(original);
    assert groups[0..] == groups;
    for i := 0 to |groups|
      invariant |kept| <= Size(groups) - Size(groups[i..])
      invariant kept == Added(original, selected, groups[..i])
      invariant sound ==> OrphanFree(kept, None)
    {
      AddedStep(original, selected, groups, i);
      var s := groups[i];
      assert groups[i..][1..] == groups[i + 1..];
      var group := original[s.start..s.end];
      var contained := MessageGroupContained(group, selected);
      if contained {
        continue;
      }
      if sound {
        GroupOrphanFree(original, s.end - 1);
        ConcatOrphanFree(kept, group, None);
      }
      kept := kept + group;
    }
    assert groups[|groups|..] == [] && groups[..|groups|] == groups;
  }

  lemma {:induction false} NoneAdded(original: seq<Message>, selected: seq<Message>)
    ensures Added(original, selected, []) == []
  {
  }

  /** PreserveImportantMessages */
  method PreserveImportantMessages(original: seq<Message>, selected: seq<Message>, maxMessages: int)
      returns (out: seq<Message>, ghost chosen: seq<Span>)
    ensures AreSpans(original, chosen) && out == Added(original, selected, chosen) + selected
    ensures forall i :: 0 <= i < |chosen| ==> Contained(original[chosen[i].start..chosen[i].end], out)
    ensures maxMessages < 0 ==> out == selected
    ensures maxMessages >= 0 && original != [] ==> NewestGroups(Spans(original, |original|), chosen, Limit(maxMessages))
    ensures |out| - |selected| <= Size(chosen)
    ensures OrphanFree(original, None) && IdsPresent(original) && OrphanFree(selected, None) ==> OrphanFree(out, None)
  {
    hide OrphanFree, NewestGroups, IdsPresent, Spans, SpanOf, Important, Added, Contained;
    if |original| == 0 || maxMessages < 0 {
      NoneAdded(original, selected);
      assert [] + selected == selected;
      return selected, [];
    }
    var groups := ImportantGroups(original, Limit(maxMessages));
    chosen := groups;
    NewestGroupsAreSpans(original, groups, Limit(maxMessages));
    var kept := PrependGroups(original, selected, groups);
    if OrphanFree(original, None) && IdsPresent(original) && OrphanFree(selected, None) {
      ConcatOrphanFree(kept, selected, None);
    }
    out := kept + selected;
    forall i | 0 <= i < |chosen|
      ensures Contained(original[chosen[i].start..chosen[i].end], out)
    {
      GroupsPresent(original, selected, chosen, i);
    }
  }

  lemma {:induction false} EmptyOrphanFree()
    ensures OrphanFree([], None)
  {
  }

  lemma {:induction false} NewestGroupsAreSpans(ms: seq<Message>, chosen: seq<Span>, max: int)
    requires NewestGroups(Spans(ms, |ms|), chosen, max)
    ensures AreSpans(ms, chosen)
  {
    hide Size, IsSpan, Spans;
    var all := Spans(ms, |ms|);
    assert forall i :: 0 <= i < |chosen| ==> chosen[i] == all[|all| - |chosen| + i];
  }

  /** An important result without an id is kept without its call. */
  lemma {:induction false} MissingIdLosesCall(ms: seq<Message>, use: ToolUse, result: ToolResult)
    requires use.id == "" && result.toolUseID == "" && result.isError
    requires ms == [Message("", Assistant, [Use(use)], None, false), ResultMessage(result)]
    ensures OrphanFree(ms, None) && Spans(ms, 2) == [Span(1, 2)] && !OrphanFree(ms[1..2], None)
  {
    assert ms[0].content[0].Use? && HasToolUse(ms[0], "");
    assert ms[1..] == [ms[1]] && [ms[1]][1..] == [];
    assert OrphanFree([], Some(ms[0])) && OrphanFree(ms[1..], Some(ms[0]));
    assert Spans(ms, 0) == [] && Spans(ms, 1) == [] && Spans(ms, 2) == [] + [SpanOf(ms, 1)];
  }
}
