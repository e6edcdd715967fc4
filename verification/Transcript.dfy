/** model/types.go: messages, tool uses and tool results, and what it means for them to be paired. */
module Transcript {
  import opened Wrappers

  datatype Role = System | User | Assistant | Tool

  datatype ToolUse = ToolUse(id: string, name: string, input: string)

  datatype Block = Text(text: string) | Use(use: ToolUse) | Artifact(data: string)

  /** The metadata entries the context policies look at. */
  datatype Marks = Marks(retention: string, loadedSkill: bool, storedID: string, storedURI: string)

  const NO_MARKS := Marks("", false, "", "")

  datatype ToolResult = ToolResult(toolUseID: string, name: string, content: string, isError: bool, marks: Marks)

  /** isSummary is the context_summary mark. */
  datatype Message = Message(id: string, role: Role, content: seq<Block>, result: Option<ToolResult>, isSummary: bool)

  function TextMessage(role: Role, text: string): Message {
    Message("", role, [Text(text)], None, false)
  }

  function ResultMessage(r: ToolResult): Message {
    Message("", Tool, [], Some(r), false)
  }

  /** The tool uses of a message's blocks, in order. */
  function Uses(content: seq<Block>): seq<ToolUse> {
    if content == [] then []
    else
      var last := content[|content| - 1];
      Uses(content[..|content| - 1]) + (if last.Use? then [last.use] else [])
  }

  /** assistantToolUses */
  function UsesOf(m: Message): seq<ToolUse> {
    if m.role.Assistant? then Uses(m.content) else []
  }

  predicate Answers(m: Message, use: ToolUse) {
    m.role.Tool? && m.result.Some? && m.result.value.toolUseID == use.id
  }

  /** The messages answer the uses one for one, in order. */
  predicate AnswerAll(results: seq<Message>, uses: seq<ToolUse>) {
    |results| == |uses| && forall i :: 0 <= i < |uses| ==> Answers(results[i], uses[i])
  }

  /** Every assistant message is followed immediately, in order, by exactly one result per tool use. */
  predicate Paired(ms: seq<Message>)
    decreases |ms|
  {
    ms == [] ||
    (var n := |UsesOf(ms[0])|;
     && !ms[0].role.Tool? && n < |ms|
     && AnswerAll(ms[1..n + 1], UsesOf(ms[0]))
     && Paired(ms[n + 1..]))
  }

  lemma {:induction false} PairedConcat(a: seq<Message>, b: seq<Message>)
    requires Paired(a) && Paired(b)
    ensures Paired(a + b)
    decreases |a|
  {
    hide UsesOf, AnswerAll;
    if a == [] {
      assert a + b == b;
    } else {
      var n, ms := |UsesOf(a[0])|, a + b;
      assert ms[1..n + 1] == a[1..n + 1] && ms[n + 1..] == a[n + 1..] + b;
      PairedConcat(a[n + 1..], b);
    }
  }

  lemma {:induction false} PairedPlain(m: Message)
    requires !m.role.Tool? && UsesOf(m) == []
    ensures Paired([m])
  {
    assert [m][1..1] == [] && [m][0 + 1..] == [];
  }

  lemma {:induction false} PairedGroup(m: Message, results: seq<Message>)
    requires m.role.Assistant? && AnswerAll(results, UsesOf(m))
    ensures Paired([m] + results)
  {
    var ms := [m] + results;
    assert ms[1..|results| + 1] == results && ms[|results| + 1..] == [];
  }

  /** What follows a paired transcript in a paired transcript is paired. */
  lemma {:induction false} PairedSuffix(a: seq<Message>, b: seq<Message>)
    requires Paired(a) && Paired(a + b)
    ensures Paired(b)
    decreases |a|
  {
    hide UsesOf, AnswerAll;
    if a == [] {
      assert a + b == b;
    } else {
      var n := |UsesOf(a[0])|;
      assert (a + b)[n + 1..] == a[n + 1..] + b;
      PairedSuffix(a[n + 1..], b);
    }
  }
}
