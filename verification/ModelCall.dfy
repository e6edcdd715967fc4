/** agent.go, runLoop: from the start of a turn to an open model stream. */
module ModelCall {
  import opened Wrappers
  import opened Transcript
  import opened Budget
  import opened Runs
  import Q = Requests
  import Sessions

  /** The transcript, what was told of it, the tool calls and the repairs are those of before. */
  ghost predicate SameTurn(s0: State, s: State) {
    && s.log.transcript == s0.log.transcript && s.starts == s0.starts
    && s.spend.turns == s0.spend.turns && s.spend.usage == s0.spend.usage
    && s.finalDenials == s0.finalDenials && s.outputRetries == s0.outputRetries
    && s.spend.toolRuns == s0.spend.toolRuns && Told(s.events) == Told(s0.events)
  }

  /** The last Stream call was checked with all the tokens reported by now. */
  ghost predicate CalledNow(s: State) {
    s.spend.calls != [] && s.spend.calls[|s.spend.calls| - 1].usage == s.spend.usage
  }

  ghost predicate NoCall(s0: State, s: State) {
    SameTurn(s0, s) && s.spend.calls == s0.spend.calls && s.requests == s0.requests
  }

  /** The calls since s0 belong to its turn and are about the session as it was then. */
  ghost predicate OwnCalls(opts: Options, s0: State, s: State) {
    && Viewable(s0.log) && s0.requests <= s.requests
    && (forall k :: |s0.requests| <= k < |s.requests| ==>
          s.requests[k].turn == s0.spend.turns && s.requests[k].view == ViewOf(s0.log))
    && (NoPolicies(opts) && s0.log.checkpoint.None? ==>
          && s.log.checkpoint.None?
          && forall k :: |s0.requests| <= k < |s.requests| ==> s.requests[k].source == s0.log.transcript)
  }

  lemma {:induction false} SpendLives(opts: Options, s: State, sp: Spend)
    requires Live(opts, s) && sp == s.spend.(checks := s.spend.checks + 1)
    ensures Live(opts, s.(spend := sp))
  {
    hide Told, Allows, Requested, Quiet, Observed, Shown;
  }

  lemma {:induction false} SaveLives(opts: Options, s: State, messages: seq<Message>)
    requires Live(opts, s)
    ensures Live(opts, s.(log := s.log.(checkpoint := Some(Sessions.Checkpoint(|s.log.transcript|, messages)))))
  {
    hide Told, Thrifty, Requested, Quiet, Observed, Shown;
  }

  /** A context policy's messages become those of the request; original are those it was given. */
  method AdoptWindow(opts: Options, w: World, window: Window, original: seq<Message>, hookFails: bool, saveFails: bool, s0: State)
      returns (s: State, messages: Option<seq<Message>>)
    requires Live(opts, s0) && (hookFails ==> w.turns(|s0.starts|).appliedHookFails || w.turns(|s0.starts|).retryHookFails)
    ensures NoCall(s0, s)
    ensures messages.Some? ==>
              && Live(opts, s) && messages.value == Q.Prepare(window.messages, opts.u)
              && s.log.checkpoint == (if window.compacted && !saveFails
                                      then Some(Sessions.Checkpoint(|s0.log.transcript|, messages.value))
                                      else s0.log.checkpoint)
              && s.events == s0.events + (if messages.value != original then [ContextApplied] else [])
                                       + (if window.compacted then [ContextCompacted] else [])
    ensures messages.None? ==> hookFails && Broken(opts, w, s) && EndsEarly(s.events)
  {
    hide Told, Live, Broken, Q.Prepare, Cause;
    var prepared := Q.PrepareMessagesForModel(window.messages, opts.u);
    s := s0;
    if prepared != original {
      if hookFails {
        SaidCause(opts, w, s, HookFailed);
        FailedEnds(opts, w, s, HookFailed, ErrorStop);
        return Failed(s, HookFailed, ErrorStop), None;
      }
      EmitLives(opts, s, ContextApplied);
      s := Emit(s, ContextApplied);
    }
    if window.compacted {
      EmitLives(opts, s, ContextCompacted);
      s := Emit(s, ContextCompacted);
      if !saveFails {
        SaveLives(opts, s, prepared);
        s := s.(log := s.log.(checkpoint := Some(Sessions.Checkpoint(|s.log.transcript|, prepared))));
      }
    }
    messages := Some(prepared);
  }

  /** The messages for a request, before and after they are prepared. */
  datatype Loaded = Loaded(source: seq<Message>, sent: seq<Message>)

  /** The messages are the view of the session, or what the context policy makes of the prepared view. */
  ghost predicate FromView(opts: Options, log: Log, source: seq<Message>) {
    && Viewable(log)
    && if opts.context.None? then source == ViewOf(log)
       else
         var window := opts.context.value(Q.Prepare(ViewOf(log), opts.u));
         window.Some? && source == window.value.messages
  }

  lemma {:induction false} PolicyCause(opts: Options, w: World, s: State)
    requires opts.context.Some? && Viewable(s.log) && opts.context.value(Q.Prepare(ViewOf(s.log), opts.u)).None?
    ensures Cause(opts, w, s, PolicyFailed)
  {
    hide Told, Q.Prepare, Viewable;
  }

  lemma {:induction false} LiveView(opts: Options, s: State)
    requires Live(opts, s)
    ensures Viewable(s.log)
  {
  }

  /** The messages of the session, as the context policy leaves them. */
  method LoadMessages(opts: Options, w: World, s0: State) returns (s: State, loaded: Option<Loaded>)
    requires Live(opts, s0)
    ensures NoCall(s0, s)
    ensures loaded.Some? ==>
              && Live(opts, s) && loaded.value.sent == Q.Prepare(loaded.value.source, opts.u)
              && FromView(opts, s0.log, loaded.value.source)
    ensures loaded.None? ==> Broken(opts, w, s) && EndsEarly(s.events)
    ensures opts.context.None? ==> s.log == s0.log
  {
    hide Told, Live, Broken, Q.Prepare, Viewable, Cause;
    var input := w.turns(|s0.starts|);
    s := s0;
    if input.viewFails {
      SaidCause(opts, w, s, LoadFailed);
      FailedEnds(opts, w, s, LoadFailed, ErrorStop);
      return Failed(s, LoadFailed, ErrorStop), None;
    }
    LiveView(opts, s);
    var view := ViewOf(s.log);
    var messages := Q.PrepareMessagesForModel(view, opts.u);
    if opts.context.None? {
      return s, Some(Loaded(view, messages));
    }
    var window := opts.context.value(messages);
    if window.None? {
      PolicyCause(opts, w, s);
      FailedEnds(opts, w, s, PolicyFailed, ErrorStop);
      return Failed(s, PolicyFailed, ErrorStop), None;
    }
    var adopted;
    s, adopted := AdoptWindow(opts, w, window.value, messages, input.appliedHookFails, input.saveFails, s);
    if adopted.None? {
      return s, None;
    }
    loaded := Some(Loaded(window.value.messages, adopted.value));
  }

  lemma {:induction false} LiveMetered(opts: Options, s: State)
    requires Live(opts, s)
    ensures Metered(s)
  {
  }

  /** Everything a turn checks before its model call. */
  method PrepareTurn(opts: Options, w: World, s0: State) returns (s: State, loaded: Option<Loaded>)
    requires Live(opts, s0)
    ensures NoCall(s0, s)
    ensures loaded.Some? ==>
              && Live(opts, s) && loaded.value.sent == Q.Prepare(loaded.value.source, opts.u)
              && FromView(opts, s0.log, loaded.value.source)
    ensures loaded.None? ==> Broken(opts, w, s) && EndsEarly(s.events)
    ensures opts.context.None? ==> s.log == s0.log
  {
    hide Told, Live, Broken, Q.Prepare, Allows, Denied, Metered, FromView, Cause;
    var ok, _, sp := CheckBudget(opts.budget, w, s0.spend, 0, 0);
    SpendLives(opts, s0, sp);
    s := s0.(spend := sp);
    if !ok {
      BudgetCause(opts, w, s, 0);
      FailedEnds(opts, w, s, BudgetExceeded, BudgetStop);
      return Failed(s, BudgetExceeded, BudgetStop), None;
    }
    s, loaded := LoadMessages(opts, w, s);
    if loaded.None? {
      return;
    }
    s, ok := PassGates(opts, w, s);
    if !ok {
      loaded := None;
    }
  }

  /** The tools, the prompt and the tenant check of a turn. */
  method PassGates(opts: Options, w: World, s0: State) returns (s: State, ok: bool)
    requires Live(opts, s0)
    ensures NoCall(s0, s) && s.log == s0.log
    ensures if ok then s == s0 else Broken(opts, w, s) && EndsEarly(s.events)
  {
    hide Told, Live, Broken, Cause;
    var input := w.turns(|s0.starts|);
    s := s0;
    if input.toolsFail {
      SaidCause(opts, w, s, ToolsFailed);
      FailedEnds(opts, w, s, ToolsFailed, ErrorStop);
      return Failed(s, ToolsFailed, ErrorStop), false;
    }
    if input.promptFails {
      SaidCause(opts, w, s, PromptFailed);
      FailedEnds(opts, w, s, PromptFailed, ErrorStop);
      return Failed(s, PromptFailed, ErrorStop), false;
    }
    if input.tenantFails {
      if input.tenantNote {
        EmitLives(opts, s, TenantDenied);
        s := Emit(s, TenantDenied);
      }
      SaidCause(opts, w, s, TenantFailed);
      FailedEnds(opts, w, s, TenantFailed, PolicyStop);
      return Failed(s, TenantFailed, PolicyStop), false;
    }
    ok := true;
  }

  /** One Stream call, if the budget allows it. */
  method CallModel(opts: Options, w: World, retry: bool, view: seq<Message>, messages: Loaded, s0: State)
      returns (s: State, ok: bool)
    requires Live(opts, s0) && |s0.requests| < 2 * |s0.starts|
    requires messages.sent == Q.Prepare(messages.source, opts.u)
    requires Derived(opts, s0.requests, Request(s0.spend.turns, |s0.events|, retry, view, messages.source, messages.sent))
    ensures SameTurn(s0, s) && s.log == s0.log
    ensures if ok
            then && Live(opts, s) && CalledNow(s)
                 && s.requests ==
                    s0.requests + [Request(s0.spend.turns, |s0.events|, retry, view, messages.source, messages.sent)]
            else Broken(opts, w, s) && EndsEarly(s.events) && s.requests == s0.requests
  {
    hide Told, Allows, Quiet, Closed, Q.Prepare, Observed, Shown, Derived, Requested, Denied, Broken, Cause;
    var snapshot, sp;
    ok, snapshot, sp := CheckBudget(opts.budget, w, s0.spend, 1, 0);
    s := s0.(spend := sp);
    SpendLives(opts, s0, sp);
    if !ok {
      BudgetCause(opts, w, s, 1);
      FailedEnds(opts, w, s, BudgetExceeded, BudgetStop);
      return Failed(s, BudgetExceeded, BudgetStop), false;
    }
    var request := Request(s.spend.turns, |s.events|, retry, view, messages.source, messages.sent);
    RequestedMore(s.requests, request, opts);
    assert s.events[..|s.events|] == s.events;
    s := s.(spend := sp.(modelCalls := sp.modelCalls + 1, calls := sp.calls + [snapshot]), requests := s.requests + [request]);
  }

  lemma {:induction false} FirstIsDerived(opts: Options, log: Log, earlier: seq<Request>, r: Request)
    requires Viewable(log) && r.view == ViewOf(log) && FromView(opts, log, r.source) && !r.retry
    ensures Derived(opts, earlier, r)
  {
    hide Told, Q.Prepare, Viewable;
  }

  lemma {:induction false} RetryIsDerived(opts: Options, earlier: seq<Request>, r: Request)
    requires earlier != [] && opts.contextRetry.Some? && r.retry
    requires var last := earlier[|earlier| - 1];
             var window := opts.contextRetry.value(last.sent);
             !last.retry && last.turn == r.turn && last.view == r.view && window.Some? && r.source == window.value.messages
    ensures Derived(opts, earlier, r)
  {
    hide Told, Q.Prepare;
  }

  /** The turn's own model call, with everything it needs. */
  method FirstCall(opts: Options, w: World, s0: State) returns (s: State, loaded: Option<Loaded>)
    requires Live(opts, s0) && Viewable(s0.log) && |s0.requests| < 2 * |s0.starts|
    ensures SameTurn(s0, s) && OwnCalls(opts, s0, s)
    ensures loaded.None? ==> Broken(opts, w, s) && EndsEarly(s.events) && |s.requests| == |s0.requests|
    ensures loaded.Some? ==>
              && Live(opts, s) && CalledNow(s) && |s.requests| == |s0.requests| + 1
              && var last := s.requests[|s0.requests|];
              !last.retry && last.turn == s0.spend.turns && last.view == ViewOf(s0.log) && last.sent == loaded.value.sent
  {
    hide Told, Live, Broken, Q.Prepare, Derived, Viewable, FromView, Cause, OwnCalls, NoPolicies, CalledNow;
    var view := ViewOf(s0.log);
    var ok;
    s, loaded := PrepareTurn(opts, w, s0);
    NoOwnCalls(opts, s0, s);
    if loaded.None? {
      return;
    }
    ghost var r := Request(s.spend.turns, |s.events|, false, view, loaded.value.source, loaded.value.sent);
    FirstIsDerived(opts, s0.log, s.requests, r);
    SourceIsTranscript(opts, s0.log, loaded.value.source);
    ghost var prepared := s;
    s, ok := CallModel(opts, w, false, view, loaded.value, s);
    if !ok {
      loaded := None;
      OwnSame(opts, s0, prepared, s);
      return;
    }
    OwnOneMore(opts, s0, prepared, s, r);
    SameTurnOn(s0, prepared, s);
    ghost var called := s;
    hide Told, SameTurn;
    s := Announce(opts, w.turns(|s0.starts|).skillNote, s);
    OwnSame(opts, s0, called, s);
    SameTurnOn(s0, called, s);
  }

  /** The model request and the skills are announced. */
  method Announce(opts: Options, note: bool, s0: State) returns (s: State)
    requires Live(opts, s0) && CalledNow(s0)
    ensures Live(opts, s) && CalledNow(s) && SameTurn(s0, s) && s.requests == s0.requests && s.log == s0.log
    ensures s.events == s0.events + [ModelRequest] + (if note then [SkillDiscovery] else [])
  {
    hide Told, Live;
    EmitLives(opts, s0, ModelRequest);
    s := Emit(s0, ModelRequest);
    s := NoteSkills(opts, note, s);
  }

  lemma {:induction false} SameTurnOn(s0: State, s1: State, s2: State)
    requires SameTurn(s0, s1) && SameTurn(s1, s2)
    ensures SameTurn(s0, s2)
  {
  }

  lemma {:induction false} OwnSame(opts: Options, s0: State, s1: State, s2: State)
    requires OwnCalls(opts, s0, s1) && s2.requests == s1.requests && s2.log == s1.log
    ensures OwnCalls(opts, s0, s2)
  {
    hide Told, Viewable;
  }

  lemma {:induction false} OwnOneMore(opts: Options, s0: State, s1: State, s2: State, r: Request)
    requires OwnCalls(opts, s0, s1) && s2.requests == s1.requests + [r] && s2.log == s1.log
    requires r.turn == s0.spend.turns && r.view == ViewOf(s0.log)
    requires opts.context.None? && s0.log.checkpoint.None? ==> r.source == s0.log.transcript
    ensures OwnCalls(opts, s0, s2)
  {
    hide Told, Viewable;
  }

  /** One turn's model call, and its one retry when the messages do not fit the context window. */
  method OpenStream(opts: Options, w: World, s0: State) returns (s: State, stream: Option<Stream>)
    requires Live(opts, s0) && |s0.requests| + 2 <= 2 * |s0.starts|
    ensures SameTurn(s0, s) && OwnCalls(opts, s0, s) && |s.requests| <= |s0.requests| + 2
    ensures stream.Some? ==> |s0.requests| < |s.requests| && Live(opts, s) && CalledNow(s)
    ensures stream.Some? ==> stream.value == Heeded(w.turns(|s0.starts|))
    ensures stream.None? ==> Broken(opts, w, s) && EndsEarly(s.events)
  {
    hide Told, Live, Broken, Q.Prepare, Derived, Viewable, FromView, Cause;
    var input := w.turns(|s0.starts|);
    LiveView(opts, s0);
    var loaded;
    s, loaded := FirstCall(opts, w, s0);
    if loaded.None? {
      return s, None;
    }
    if input.first.WindowExceeded? && opts.contextRetry.Some? {
      s, stream := Retry(opts, w, ViewOf(s0.log), loaded.value, s);
      return;
    }
    if !input.first.Opened? {
      StreamCause(opts, w, s);
      FailedEnds(opts, w, s, StreamFailed, ErrorStop);
      return Failed(s, StreamFailed, ErrorStop), None;
    }
    stream := Some(input.first.stream);
  }

  lemma {:induction false} StreamCause(opts: Options, w: World, s: State)
    requires NoStream(opts, w.turns(|s.starts|), s.requests)
    ensures Cause(opts, w, s, StreamFailed)
  {
  }

  lemma {:induction false} NoOwnCalls(opts: Options, s0: State, s: State)
    requires Viewable(s0.log) && NoCall(s0, s) && (opts.context.None? ==> s.log == s0.log)
    ensures OwnCalls(opts, s0, s)
  {
    hide Told, Viewable;
  }

  lemma {:induction false} SourceIsTranscript(opts: Options, log: Log, source: seq<Message>)
    requires FromView(opts, log, source)
    ensures opts.context.None? && log.checkpoint.None? ==> source == log.transcript
  {
    hide Told, Q.Prepare;
  }

  /** The retry after the messages did not fit. */
  method Retry(opts: Options, w: World, view: seq<Message>, tried: Loaded, s0: State) returns (s: State, stream: Option<Stream>)
    requires Live(opts, s0) && opts.contextRetry.Some? && w.turns(|s0.starts|).first.WindowExceeded?
    requires 0 < |s0.requests| < 2 * |s0.starts|
    requires var last := s0.requests[|s0.requests| - 1];
             !last.retry && last.turn == s0.spend.turns && last.view == view && last.sent == tried.sent
    ensures SameTurn(s0, s) && s0.requests <= s.requests && |s.requests| <= |s0.requests| + 1
    ensures forall k :: |s0.requests| <= k < |s.requests| ==> s.requests[k].turn == s0.spend.turns && s.requests[k].view == view
    ensures stream.Some? ==> Live(opts, s) && CalledNow(s) && stream.value == Heeded(w.turns(|s0.starts|))
    ensures stream.None? ==> Broken(opts, w, s) && EndsEarly(s.events)
  {
    hide Told, Live, Broken, Q.Prepare, Derived, Cause;
    var input := w.turns(|s0.starts|);
    s := s0;
    var window := opts.contextRetry.value(tried.sent);
    if window.None? || input.retryFails {
      StreamCause(opts, w, s);
      FailedEnds(opts, w, s, StreamFailed, ErrorStop);
      return Failed(s, StreamFailed, ErrorStop), None;
    }
    var messages, ok;
    s, messages := AdoptWindow(opts, w, window.value, tried.sent, input.retryHookFails, input.retrySaveFails, s);
    if messages.None? {
      return s, None;
    }
    s := NoteSkills(opts, input.retrySkillNote, s);
    ghost var r := Request(s.spend.turns, |s.events|, true, view, window.value.messages, messages.value);
    RetryIsDerived(opts, s.requests, r);
    s, ok := CallModel(opts, w, true, view, Loaded(window.value.messages, messages.value), s);
    if !ok {
      return s, None;
    }
    if !input.second.Opened? {
      StreamCause(opts, w, s);
      FailedEnds(opts, w, s, StreamFailed, ErrorStop);
      return Failed(s, StreamFailed, ErrorStop), None;
    }
    stream := Some(input.second.stream);
  }

  /** emitSkillDiscovery */
  method NoteSkills(opts: Options, note: bool, s0: State) returns (s: State)
    requires Live(opts, s0)
    ensures Live(opts, s) && NoCall(s0, s) && s.log == s0.log
    ensures s.events == s0.events + (if note then [SkillDiscovery] else [])
  {
    hide Told, Live;
    s := s0;
    if note {
      EmitLives(opts, s, SkillDiscovery);
      s := Emit(s, SkillDiscovery);
    }
  }
}
