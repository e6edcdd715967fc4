/** budget/budget.go, and the token counts of model/client.go. */
module Budget {
  import opened Wrappers

  datatype Usage = Usage(input: int, output: int, total: int)

  const NO_USAGE := Usage(0, 0, 0)

  function Plus(a: Usage, b: Usage): Usage {
    Usage(a.input + b.input, a.output + b.output, a.total + b.total)
  }

  /** Token counts add up in any order, and none counts for nothing. */
  lemma {:induction false} PlusLaws(a: Usage, b: Usage, c: Usage)
    ensures Plus(a, NO_USAGE) == a && Plus(a, b) == Plus(b, a) && Plus(Plus(a, b), c) == Plus(a, Plus(b, c))
  {
  }

  datatype Snapshot = Snapshot(elapsed: int, turns: nat, modelCalls: nat, toolCalls: nat, usage: Usage)

  /** A limit that is not positive is off. */
  datatype Policy = Policy(
    maxTurns: int, maxModelCalls: int, maxToolCalls: int,
    maxInputTokens: int, maxOutputTokens: int, maxTotalTokens: int, maxDuration: int)

  datatype Limit = Duration | Turns | ModelCalls | ToolCalls | InputTokens | OutputTokens | TotalTokens

  predicate Over(limit: int, value: int) {
    limit > 0 && value > limit
  }

  predicate Enabled(p: Policy) {
    || p.maxTurns > 0 || p.maxModelCalls > 0 || p.maxToolCalls > 0
    || p.maxInputTokens > 0 || p.maxOutputTokens > 0 || p.maxTotalTokens > 0 || p.maxDuration > 0
  }

  /** The order in which limits are reported. */
  function Rank(limit: Limit): nat {
    match limit
    case Duration => 0 case Turns => 1 case ModelCalls => 2 case ToolCalls => 3
    case InputTokens => 4 case OutputTokens => 5 case TotalTokens => 6
  }

  /** Check: the first limit that is exceeded, if any */
  function Check(p: Policy, s: Snapshot): (r: Option<Limit>)
    ensures r.None? <==> forall limit: Limit :: !Exceeds(p, s, limit)
    ensures r.Some? ==> Exceeds(p, s, r.value) && forall limit: Limit :: Rank(limit) < Rank(r.value) ==> !Exceeds(p, s, limit)
  {
    if !Enabled(p) then None
    else if Over(p.maxDuration, s.elapsed) then assert Exceeds(p, s, Duration); Some(Duration)
    else if Over(p.maxTurns, s.turns) then assert Exceeds(p, s, Turns); Some(Turns)
    else if Over(p.maxModelCalls, s.modelCalls) then assert Exceeds(p, s, ModelCalls); Some(ModelCalls)
    else if Over(p.maxToolCalls, s.toolCalls) then assert Exceeds(p, s, ToolCalls); Some(ToolCalls)
    else if Over(p.maxInputTokens, s.usage.input) then assert Exceeds(p, s, InputTokens); Some(InputTokens)
    else if Over(p.maxOutputTokens, s.usage.output) then assert Exceeds(p, s, OutputTokens); Some(OutputTokens)
    else if Over(p.maxTotalTokens, s.usage.total) then assert Exceeds(p, s, TotalTokens); Some(TotalTokens)
    else None
  }

  predicate Exceeds(p: Policy, s: Snapshot, limit: Limit) {
    match limit
    case Duration => Over(p.maxDuration, s.elapsed)
    case Turns => Over(p.maxTurns, s.turns)
    case ModelCalls => Over(p.maxModelCalls, s.modelCalls)
    case ToolCalls => Over(p.maxToolCalls, s.toolCalls)
    case InputTokens => Over(p.maxInputTokens, s.usage.input)
    case OutputTokens => Over(p.maxOutputTokens, s.usage.output)
    case TotalTokens => Over(p.maxTotalTokens, s.usage.total)
  }

  /** A governor that is absent allows everything. */
  predicate Allows(budget: Option<Policy>, s: Snapshot) {
    budget.Some? ==> Check(budget.value, s).None?
  }

  /** A policy allows exactly what is within each of its positive limits; a value that reaches a limit is within it. */
  lemma {:induction false} AllowsIff(p: Policy, s: Snapshot)
    ensures Allows(Some(p), s) <==>
            && (p.maxDuration > 0 ==> s.elapsed <= p.maxDuration) && (p.maxTurns > 0 ==> s.turns <= p.maxTurns)
            && (p.maxModelCalls > 0 ==> s.modelCalls <= p.maxModelCalls) && (p.maxToolCalls > 0 ==> s.toolCalls <= p.maxToolCalls)
            && (p.maxInputTokens > 0 ==> s.usage.input <= p.maxInputTokens)
            && (p.maxOutputTokens > 0 ==> s.usage.output <= p.maxOutputTokens)
            && (p.maxTotalTokens > 0 ==> s.usage.total <= p.maxTotalTokens)
  {
    assert Exceeds(p, s, Duration) <==> Over(p.maxDuration, s.elapsed);
    assert Exceeds(p, s, Turns) <==> Over(p.maxTurns, s.turns);
    assert Exceeds(p, s, ModelCalls) <==> Over(p.maxModelCalls, s.modelCalls);
    assert Exceeds(p, s, ToolCalls) <==> Over(p.maxToolCalls, s.toolCalls);
    assert Exceeds(p, s, InputTokens) <==> Over(p.maxInputTokens, s.usage.input);
    assert Exceeds(p, s, OutputTokens) <==> Over(p.maxOutputTokens, s.usage.output);
    assert Exceeds(p, s, TotalTokens) <==> Over(p.maxTotalTokens, s.usage.total);
  }
}
