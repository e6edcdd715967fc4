/**
  agent.go, collectAssistant and normalizeAssistantTextContent: a stream's message as it is stored, and
  its text as later requests read it.
 */
module StoredText {
  import opened Wrappers
  import opened Transcript
  import opened Budget
  import opened Runs
  import opened Collect
  import S = StreamText
  import C = AssistantContent
  import Strings = Text

  /** A later reading of the next text starts afresh: a block that is not text was stored since the last text. */
  predicate Restarted(stream: seq<StreamEvent>) {
    stream != [] &&
    (var front, e := stream[..|stream| - 1], stream[|stream| - 1];
     match e
     case UseDone(_) => true
     case ArtifactChunk(artifact) => artifact.Some? || Restarted(front)
     case TextChunk(text) => Restarted(front) && S.LastNonSpace(Strings.TrimSpace(text)) == S.NUL
     case _ => Restarted(front))
  }

  /** The separator put before the text: what a fresh normaliser drops. */
  function Separator(n: S.State, text: string, u: S.Unicode): string {
    S.Prefix(n, n.pending + S.Leading(text), Strings.TrimSpace(text), u)
  }

  /** Reading the text again changes it. */
  predicate Disturbed(n: S.State, restarted: bool, text: string, u: S.Unicode) {
    if restarted then Strings.TrimSpace(text) != "" && Separator(n, text, u) != "" else S.CollapsesAt(n, text, u)
  }

  /**
    No chunk puts a separator directly behind a block that is not text, and none puts a blank between
    blank lines and punctuation.
   */
  predicate ReadsBack(stream: seq<StreamEvent>, opts: Options) {
    stream == [] ||
    (var front, e := stream[..|stream| - 1], stream[|stream| - 1];
     ReadsBack(front, opts) &&
     (e.TextChunk? ==> !Disturbed(HearAll(front, opts).state, Restarted(front), e.text, opts.u)))
  }

  /** The state in which a later reading stands. */
  function ReplayState(n: S.State, restarted: bool): S.State {
    if restarted then S.FRESH else S.Settled(n)
  }

  lemma {:induction false} TextReplayed(n: S.State, restarted: bool, text: string, u: S.Unicode)
    requires S.Sane(u) && S.Valid(n)
    ensures var once, r := S.Output(n, text, u), ReplayState(n, restarted);
            && (once == "" <==> Strings.TrimSpace(text) == "")
            && (once == "" ==> S.Settled(S.Next(n, text)) == S.Settled(n) && !Disturbed(n, restarted, text, u))
            && (once != "" ==>
                  && S.Next(r, once) ==
                     ReplayState(S.Next(n, text), restarted && S.LastNonSpace(Strings.TrimSpace(text)) == S.NUL)
                  && (if Disturbed(n, restarted, text, u)
                      then |S.Output(r, once, u)| < |once| else S.Output(r, once, u) == once))
  {
    hide S.Prefix, S.CollapsesAt, S.Leading, S.LastNonSpace, S.Next, S.Output, Strings.TrimSpace, S.Valid, S.Sane;
    S.PushRestarted(n, text, u);
    S.PushReplayed(n, text, u);
    BlankUndisturbed(n, restarted, text, u);
    var core := Strings.TrimSpace(text);
    if core != "" {
      assert "" + core == core;
      assert |Separator(n, text, u) + core| == |Separator(n, text, u)| + |core|;
    }
  }

  lemma {:induction false} BlankUndisturbed(n: S.State, restarted: bool, text: string, u: S.Unicode)
    ensures Strings.TrimSpace(text) == "" ==> !Disturbed(n, restarted, text, u)
  {
    hide Strings.TrimSpace, S.Prefix, S.Collapses;
  }

  lemma {:induction false} RestartedStep(front: seq<StreamEvent>, e: StreamEvent)
    ensures Restarted(front + [e]) ==
            match e
            case UseDone(_) => true
            case ArtifactChunk(artifact) => artifact.Some? || Restarted(front)
            case TextChunk(text) => Restarted(front) && S.LastNonSpace(Strings.TrimSpace(text)) == S.NUL
            case _ => Restarted(front)
  {
    hide S.LastNonSpace, Strings.TrimSpace;
    assert (front + [e])[..|front|] == front;
  }

  lemma {:induction false} NoCore(text: string)
    requires Strings.TrimSpace(text) == ""
    ensures S.LastNonSpace(Strings.TrimSpace(text)) == S.NUL
  {
  }

  /** What the second reading makes of the blocks of the first, one event further. */
  ghost predicate InStep(h: Heard, f: C.Folded, restarted: bool, same: bool) {
    && S.Valid(h.state) && f.state == ReplayState(h.state, restarted)
    && (if same then C.Plain(f.out) == C.Plain(h.content) else |C.Plain(f.out)| < |C.Plain(h.content)|)
  }

  lemma {:induction false} TextInStep(h: Heard, restarted: bool, same: bool, text: string, opts: Options)
    requires S.Sane(opts.u) && InStep(h, C.Fold(h.content, opts.u), restarted, same)
    ensures var h' := Hear(h, TextChunk(text), opts);
            InStep(h', C.Fold(h'.content, opts.u), restarted && S.LastNonSpace(Strings.TrimSpace(text)) == S.NUL,
                   same && !Disturbed(h.state, restarted, text, opts.u))
  {
    hide S.Output, S.Next, S.LastNonSpace, Strings.TrimSpace, Disturbed, C.Plain, C.Fold, C.Add, S.Valid;
    var f, out := C.Fold(h.content, opts.u), S.Output(h.state, text, opts.u);
    TextReplayed(h.state, restarted, text, opts.u);
    S.PushEffect(h.state, text, opts.u);
    if out == "" {
      NoCore(text);
    } else {
      C.FoldSnoc(h.content, Text(out), opts.u);
      C.AddState(f, Text(out), opts.u);
      C.AddPlain(f, Text(out), opts.u);
      C.Snoc(h.content, Text(out));
    }
  }

  lemma {:induction false} BlockInStep(h: Heard, restarted: bool, same: bool, b: Block, u: S.Unicode)
    requires InStep(h, C.Fold(h.content, u), restarted, same) && !b.Text?
    ensures InStep(h.(content := h.content + [b]), C.Fold(h.content + [b], u), true, same)
  {
    hide C.Plain, C.Fold, C.Add, S.Valid;
    var f := C.Fold(h.content, u);
    C.FoldSnoc(h.content, b, u);
    C.AddState(f, b, u);
    C.AddPlain(f, b, u);
    C.Snoc(h.content, b);
    assert C.Plain(f.out) + "" == C.Plain(f.out) && C.Plain(h.content) + "" == C.Plain(h.content);
  }

  lemma {:induction false} EventInStep(h: Heard, restarted: bool, same: bool, e: StreamEvent, opts: Options)
    requires InStep(h, C.Fold(h.content, opts.u), restarted, same) && !e.TextChunk?
    ensures var h' := Hear(h, e, opts);
            InStep(h', C.Fold(h'.content, opts.u), restarted || e.UseDone? || (e.ArtifactChunk? && e.artifact.Some?), same)
  {
    hide S.Output, S.Next, C.Plain, C.Fold, S.Valid, Normalized, Plus;
    if e.UseDone? {
      BlockInStep(h, restarted, same, Use(Normalized(e.use, opts)), opts.u);
    } else if e.ArtifactChunk? && e.artifact.Some? {
      BlockInStep(h, restarted, same, Artifact(e.artifact.value), opts.u);
    }
  }

  lemma {:induction false} StreamInStep(stream: seq<StreamEvent>, opts: Options)
    requires S.Sane(opts.u)
    ensures var h := HearAll(stream, opts);
            InStep(h, C.Fold(h.content, opts.u), Restarted(stream), ReadsBack(stream, opts))
  {
    hide InStep, Hear, Disturbed, C.Fold, Restarted;
    if stream == [] {
      assert InStep(Heard([], S.FRESH, NO_USAGE, []), C.Fold([], opts.u), false, true) by { EmptyInStep(opts.u); }
      assert !Restarted([]) by { NotRestarted(); }
    } else {
      var front, e := stream[..|stream| - 1], stream[|stream| - 1];
      assert front + [e] == stream;
      StreamInStep(front, opts);
      RestartedStep(front, e);
      var h := HearAll(front, opts);
      if e.TextChunk? {
        TextInStep(h, Restarted(front), ReadsBack(front, opts), e.text, opts);
      } else {
        EventInStep(h, Restarted(front), ReadsBack(front, opts), e, opts);
      }
    }
  }

  lemma {:induction false} NotRestarted()
    ensures !Restarted([])
  {
  }

  lemma {:induction false} EmptyInStep(u: S.Unicode)
    ensures InStep(Heard([], S.FRESH, NO_USAGE, []), C.Fold([], u), false, true)
  {
  }

  /** The text of a stored message is what was streamed, at every later turn, exactly when ReadsBack holds of the stream. */
  lemma {:induction false} StoredTextReadsBackIff(stream: seq<StreamEvent>, opts: Options)
    requires S.Sane(opts.u)
    ensures var content := HearAll(stream, opts).content;
            C.Plain(C.Normalize(content, opts.u)) == C.Plain(content) <==> ReadsBack(stream, opts)
  {
    StreamInStep(stream, opts);
    hide HearAll, C.Fold, ReadsBack, Restarted;
  }

  // ----- An input whose text changes -----

  /** Text that goes on after a tool use: streamed as "a b", read as "ab" at the next turn. */
  lemma {:induction false} ResumedTextChanges(stream: seq<StreamEvent>, use: ToolUse, opts: Options)
    requires stream == [TextChunk("a"), UseDone(use), TextChunk(" b")]
    ensures var content := HearAll(stream, opts).content;
            && C.Plain(content) == "a b" && C.Plain(C.Normalize(content, opts.u)) == "ab"
  {
    OrdinaryLetters();
    hide *;
    Resumed('a', 'b', use, opts);
    assert " " + ['b'] == " b" && ['a'] + (" " + ['b']) == "a b" && ['a'] + ['b'] == "ab" && ['a'] == "a";
  }

  lemma {:induction false} OrdinaryLetters()
    ensures S.Ordinary('a') && S.Ordinary('b') && !S.StartsPunctuation('b')
  {
  }

  lemma {:induction false} Resumed(c: char, d: char, use: ToolUse, opts: Options)
    requires S.Ordinary(c) && S.Ordinary(d) && !S.StartsPunctuation(d)
    ensures var content := HearAll([TextChunk([c]), UseDone(use), TextChunk(" " + [d])], opts).content;
            C.Plain(content) == [c] + (" " + [d]) && C.Plain(C.Normalize(content, opts.u)) == [c] + [d]
  {
    hide *;
    S.PushChar(c, opts.u);
    S.PushBlank(c, d, opts.u);
    ThreeEvents([c], use, " " + [d], S.AfterChar(c), opts);
    var used := Normalized(use, opts);
    FoldThree([c], used, " " + [d], [d], opts.u);
    ThreePlain([c], used, " " + [d]);
    ThreePlain([c], used, [d]);
  }

  lemma {:induction false} ThreeEvents(a: string, use: ToolUse, b: string, n: S.State, opts: Options)
    requires a != "" && b != "" && S.Output(S.FRESH, a, opts.u) == a && S.Next(S.FRESH, a) == n && S.Output(n, b, opts.u) == b
    ensures HearAll([TextChunk(a), UseDone(use), TextChunk(b)], opts).content == [Text(a), Use(Normalized(use, opts)), Text(b)]
  {
    hide S.Output, S.Next;
    var stream := [TextChunk(a), UseDone(use), TextChunk(b)];
    assert stream[..2] == [TextChunk(a), UseDone(use)] && stream[..2][..1] == [TextChunk(a)] && stream[..2][..1][..0] == [];
    assert HearAll([TextChunk(a)], opts).content == [Text(a)] && HearAll([TextChunk(a)], opts).state == n;
    assert HearAll(stream[..2], opts).content == [Text(a), Use(Normalized(use, opts))] && HearAll(stream[..2], opts).state == n;
  }

  lemma {:induction false} FoldThree(a: string, use: ToolUse, b: string, b': string, u: S.Unicode)
    requires a != "" && b' != "" && S.Output(S.FRESH, a, u) == a && S.Output(S.FRESH, b, u) == b'
    ensures C.Normalize([Text(a), Use(use), Text(b)], u) == [Text(a), Use(use), Text(b')]
  {
    hide S.Output, S.Next, C.Fold;
    C.FoldSnoc([], Text(a), u);
    C.FoldSnoc([Text(a)], Use(use), u);
    C.FoldSnoc([Text(a), Use(use)], Text(b), u);
    assert [] + [Text(a)] == [Text(a)] && [Text(a)] + [Use(use)] == [Text(a), Use(use)];
    assert [Text(a), Use(use)] + [Text(b)] == [Text(a), Use(use), Text(b)];
    assert C.Fold([], u) == C.Folded([], S.FRESH) by { NoFold(u); }
    assert C.Fold([Text(a)], u).out == [Text(a)];
    assert C.Fold([Text(a), Use(use)], u) == C.Folded([Text(a), Use(use)], S.FRESH);
  }

  lemma {:induction false} ThreePlain(a: string, use: ToolUse, b: string)
    ensures C.Plain([Text(a), Use(use), Text(b)]) == a + b
  {
    hide *;
    NoPlain();
    C.Snoc([], Text(a));
    C.Snoc([Text(a)], Use(use));
    C.Snoc([Text(a), Use(use)], Text(b));
    assert [] + [Text(a)] == [Text(a)] && [Text(a)] + [Use(use)] == [Text(a), Use(use)];
    assert [Text(a), Use(use)] + [Text(b)] == [Text(a), Use(use), Text(b)];
    assert "" + a == a && a + "" == a;
  }

  lemma {:induction false} NoFold(u: S.Unicode)
    ensures C.Fold([], u) == C.Folded([], S.FRESH)
  {
  }

  lemma {:induction false} NoPlain()
    ensures C.Plain([]) == ""
  {
  }
}
