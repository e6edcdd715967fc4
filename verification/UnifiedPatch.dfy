/**
  workspace/unified.go, the applier: placing the hunks of one file patch on the lines of a file.

  Contents and lines are Go strings. A hunk line's kind is the byte the parser stored, and a
  kind other than ' ', '-' and '+' is skipped, as the switch in the source skips it.
 */
module UnifiedPatch {
  import opened Wrappers
  import opened Text

  datatype Line = Line(kind: char, text: string)
  datatype Hunk = Hunk(oldStart: int, oldCount: int, newStart: int, newCount: int, lines: seq<Line>)
  datatype FilePatch = FilePatch(oldPath: string, newPath: string, hunks: seq<Hunk>)

  datatype ApplyError =
    | HunkOutsideFile(oldStart: int)
    | LineMismatch(index: nat, expected: string)
    | DeleteLeavesLines(count: nat)
    | FileAlreadyExists

  const DEV_NULL := "/dev/null"

  // ----- What a hunk says -----

  predicate InOld(l: Line) { l.kind == ' ' || l.kind == '-' }
  predicate InNew(l: Line) { l.kind == ' ' || l.kind == '+' }

  /** The lines a hunk expects to find. */
  function OldSide(lines: seq<Line>): seq<string> {
    if lines == [] then []
    else OldSide(lines[..|lines| - 1]) + (if InOld(lines[|lines| - 1]) then [lines[|lines| - 1].text] else [])
  }

  /** The lines a hunk leaves behind. */
  function NewSide(lines: seq<Line>): seq<string> {
    if lines == [] then []
    else NewSide(lines[..|lines| - 1]) + (if InNew(lines[|lines| - 1]) then [lines[|lines| - 1].text] else [])
  }

  /** Header counts agree with the body. */
  predicate CountsAgree(h: Hunk) {
    |OldSide(h.lines)| == h.oldCount && |NewSide(h.lines)| == h.newCount
  }

  /** The 0-based line index a hunk header asks for. */
  function Target(h: Hunk): int {
    if h.oldStart == 0 then 0 else h.oldStart - 1
  }

  // ----- The declarative meaning: a factorisation of the file -----

  datatype Which = Before | After

  function Side(h: Hunk, which: Which): seq<string> {
    match which case Before => OldSide(h.lines) case After => NewSide(h.lines)
  }

  /** gap0 · side1 · gap1 · … · siden · gapn */
  function Weave(gaps: seq<seq<string>>, hunks: seq<Hunk>, which: Which): seq<string>
    requires |gaps| == |hunks| + 1
  {
    if hunks == [] then gaps[0] else gaps[0] + Side(hunks[0], which) + Weave(gaps[1..], hunks[1..], which)
  }

  /** Every hunk's header names the line at which its minus side stands, the first gap starting at line base. */
  predicate Placed(gaps: seq<seq<string>>, hunks: seq<Hunk>, base: int)
    requires |gaps| == |hunks| + 1
  {
    hunks == [] ||
    (&& Target(hunks[0]) == base + |gaps[0]|
     && Placed(gaps[1..], hunks[1..], base + |gaps[0]| + |OldSide(hunks[0].lines)|))
  }

  ghost predicate Factors(lines: seq<string>, hunks: seq<Hunk>, gaps: seq<seq<string>>) {
    && |gaps| == |hunks| + 1
    && Placed(gaps, hunks, 0)
    && lines == Weave(gaps, hunks, Before)
  }

  // ----- Application as a function on line sequences -----

  /** What is produced from line pos of the file on, or None when some hunk does not apply. */
  function ApplyFrom(lines: seq<string>, hunks: seq<Hunk>, pos: nat): Option<seq<string>>
    requires pos <= |lines|
    decreases |hunks|
  {
    if hunks == [] then Some(lines[pos..])
    else
      var h := hunks[0];
      var t := Target(h);
      if t < pos || t > |lines| || !(OldSide(h.lines) <= lines[t..]) then None
      else
        match ApplyFrom(lines, hunks[1..], t + |OldSide(h.lines)|)
        case None => None
        case Some(rest) => Some(lines[pos..t] + NewSide(h.lines) + rest)
  }

  lemma {:induction false} Cut<T>(s: seq<T>, pos: nat, gap: seq<T>, minus: seq<T>, tail: seq<T>)
    requires pos <= |s| && s[pos..] == gap + minus + tail
    ensures var t := pos + |gap|;
            && t <= |s| && s[pos..t] == gap && minus <= s[t..]
            && t + |minus| <= |s| && s[t + |minus|..] == tail
  {
    var t := pos + |gap|;
    assert |s[pos..]| == |gap| + |minus| + |tail|;
    assert s[pos..t] == s[pos..][..|gap|];
    assert s[t..] == s[pos..][|gap|..] == minus + tail;
    assert s[t + |minus|..] == s[t..][|minus|..];
  }

  lemma {:induction false} Paste<T>(s: seq<T>, pos: nat, t: nat, minus: seq<T>)
    requires pos <= t <= |s| && minus <= s[t..]
    ensures s[pos..] == s[pos..t] + minus + s[t + |minus|..]
  {
    assert s[t..] == minus + s[t..][|minus|..];
  }

  lemma {:induction false} ConsGap(gap: seq<string>, rest: seq<seq<string>>, hunks: seq<Hunk>, base: int)
    requires hunks != [] && |rest| == |hunks|
    requires Target(hunks[0]) == base + |gap|
    requires Placed(rest, hunks[1..], base + |gap| + |OldSide(hunks[0].lines)|)
    ensures Placed([gap] + rest, hunks, base)
    ensures forall which ::
              Weave([gap] + rest, hunks, which) == gap + Side(hunks[0], which) + Weave(rest, hunks[1..], which)
  {
    assert ([gap] + rest)[1..] == rest;
  }

  lemma {:induction false} ApplyStep(lines: seq<string>, hunks: seq<Hunk>, pos: nat)
    requires pos <= |lines| && hunks != [] && ApplyFrom(lines, hunks, pos).Some?
    ensures var t, minus := Target(hunks[0]), OldSide(hunks[0].lines);
            && pos <= t <= |lines| && minus <= lines[t..]
            && var rest := ApplyFrom(lines, hunks[1..], t + |minus|);
            && rest.Some?
            && ApplyFrom(lines, hunks, pos).value == lines[pos..t] + NewSide(hunks[0].lines) + rest.value
  {
    hide OldSide, NewSide, Target;
  }

  /** A successful application exhibits the gaps. */
  lemma {:induction false} AppliedGaps(lines: seq<string>, hunks: seq<Hunk>, pos: nat) returns (gaps: seq<seq<string>>)
    requires pos <= |lines| && ApplyFrom(lines, hunks, pos).Some?
    ensures |gaps| == |hunks| + 1 && Placed(gaps, hunks, pos)
    ensures lines[pos..] == Weave(gaps, hunks, Before)
    ensures ApplyFrom(lines, hunks, pos).value == Weave(gaps, hunks, After)
    decreases |hunks|
  {
    hide OldSide, NewSide, Target, Weave, Placed, ApplyFrom;
    if hunks == [] {
      gaps := [lines[pos..]];
      OneGap(lines, pos);
    } else {
      ApplyStep(lines, hunks, pos);
      var t, minus := Target(hunks[0]), OldSide(hunks[0].lines);
      Paste(lines, pos, t, minus);
      var rest := AppliedGaps(lines, hunks[1..], t + |minus|);
      gaps := [lines[pos..t]] + rest;
      ConsGap(lines[pos..t], rest, hunks, pos);
    }
  }

  lemma {:induction false} OneGap(lines: seq<string>, pos: nat)
    requires pos <= |lines|
    ensures var gaps := [lines[pos..]];
            && Placed(gaps, [], pos) && ApplyFrom(lines, [], pos) == Some(lines[pos..])
            && Weave(gaps, [], Before) == lines[pos..] && Weave(gaps, [], After) == lines[pos..]
  {
  }

  /** Any factorisation of the remaining lines is the one the application uses. */
  lemma {:induction false} GapsApply(lines: seq<string>, hunks: seq<Hunk>, pos: nat, gaps: seq<seq<string>>)
    requires pos <= |lines| && |gaps| == |hunks| + 1 && Placed(gaps, hunks, pos)
    requires lines[pos..] == Weave(gaps, hunks, Before)
    ensures ApplyFrom(lines, hunks, pos) == Some(Weave(gaps, hunks, After))
    decreases |hunks|
  {
    hide OldSide, NewSide, Target, Weave, Placed, ApplyFrom;
    if hunks == [] {
      OneGap(lines, pos);
      assert gaps == [gaps[0]];
      WeaveOne(gaps);
    } else {
      var minus := OldSide(hunks[0].lines);
      UnconsGap(gaps, hunks, pos);
      Cut(lines, pos, gaps[0], minus, Weave(gaps[1..], hunks[1..], Before));
      GapsApply(lines, hunks[1..], pos + |gaps[0]| + |minus|, gaps[1..]);
      ApplyCons(lines, hunks, pos);
    }
  }

  lemma {:induction false} WeaveOne(gaps: seq<seq<string>>)
    requires |gaps| == 1
    ensures Weave(gaps, [], Before) == gaps[0] && Weave(gaps, [], After) == gaps[0]
  {
  }

  lemma {:induction false} UnconsGap(gaps: seq<seq<string>>, hunks: seq<Hunk>, base: int)
    requires |gaps| == |hunks| + 1 && hunks != [] && Placed(gaps, hunks, base)
    ensures Target(hunks[0]) == base + |gaps[0]|
    ensures Placed(gaps[1..], hunks[1..], base + |gaps[0]| + |OldSide(hunks[0].lines)|)
    ensures Weave(gaps, hunks, Before) == gaps[0] + OldSide(hunks[0].lines) + Weave(gaps[1..], hunks[1..], Before)
    ensures Weave(gaps, hunks, After) == gaps[0] + NewSide(hunks[0].lines) + Weave(gaps[1..], hunks[1..], After)
  {
    hide OldSide, NewSide, Target;
  }

  lemma {:induction false} ApplyCons(lines: seq<string>, hunks: seq<Hunk>, pos: nat)
    requires hunks != [] && pos <= Target(hunks[0]) <= |lines| && OldSide(hunks[0].lines) <= lines[Target(hunks[0])..]
    requires ApplyFrom(lines, hunks[1..], Target(hunks[0]) + |OldSide(hunks[0].lines)|).Some?
    ensures ApplyFrom(lines, hunks, pos) ==
            Some(lines[pos..Target(hunks[0])] + NewSide(hunks[0].lines) +
                 ApplyFrom(lines, hunks[1..], Target(hunks[0]) + |OldSide(hunks[0].lines)|).value)
  {
    hide OldSide, NewSide, Target;
  }

  /** A patch applies exactly when the file factors around its hunks, and then only the sides change. */
  lemma {:induction false} AppliesIffFactors(lines: seq<string>, hunks: seq<Hunk>)
    ensures ApplyFrom(lines, hunks, 0).Some? <==> exists gaps :: Factors(lines, hunks, gaps)
    ensures forall gaps :: Factors(lines, hunks, gaps) ==>
              ApplyFrom(lines, hunks, 0) == Some(Weave(gaps, hunks, After))
  {
    assert lines[0..] == lines;
    if ApplyFrom(lines, hunks, 0).Some? {
      var gaps := AppliedGaps(lines, hunks, 0);
      assert Factors(lines, hunks, gaps);
    }
    forall gaps | Factors(lines, hunks, gaps)
      ensures ApplyFrom(lines, hunks, 0) == Some(Weave(gaps, hunks, After))
    {
      GapsApply(lines, hunks, 0, gaps);
    }
  }

  /** How many lines the hunks add on balance. */
  function Growth(hunks: seq<Hunk>): int {
    if hunks == [] then 0 else |NewSide(hunks[0].lines)| - |OldSide(hunks[0].lines)| + Growth(hunks[1..])
  }

  /** Σ (newCount − oldCount), read off the headers */
  function HeaderGrowth(hunks: seq<Hunk>): int {
    if hunks == [] then 0 else hunks[0].newCount - hunks[0].oldCount + HeaderGrowth(hunks[1..])
  }

  lemma {:induction false} AppliedLength(lines: seq<string>, hunks: seq<Hunk>, pos: nat)
    requires pos <= |lines| && ApplyFrom(lines, hunks, pos).Some?
    ensures |ApplyFrom(lines, hunks, pos).value| == |lines| - pos + Growth(hunks)
    ensures (forall h :: h in hunks ==> CountsAgree(h)) ==> Growth(hunks) == HeaderGrowth(hunks)
    decreases |hunks|
  {
    if hunks != [] {
      AppliedLength(lines, hunks[1..], Target(hunks[0]) + |OldSide(hunks[0].lines)|);
      assert hunks[0] in hunks;
    }
  }

  // ----- Undoing a patch -----

  function Flip(l: Line): Line {
    Line(if l.kind == '-' then '+' else if l.kind == '+' then '-' else l.kind, l.text)
  }

  function FlipAll(lines: seq<Line>): seq<Line> {
    seq(|lines|, i requires 0 <= i < |lines| => Flip(lines[i]))
  }

  /** The hunks with both sides exchanged; shift is how far the output has moved from the input so far. */
  function Invert(hunks: seq<Hunk>, shift: int): seq<Hunk> {
    if hunks == [] then []
    else
      var h := hunks[0];
      [Hunk(Target(h) + shift + 1, h.newCount, h.oldStart, h.oldCount, FlipAll(h.lines))]
      + Invert(hunks[1..], shift + |NewSide(h.lines)| - |OldSide(h.lines)|)
  }

  lemma {:induction false} FlipSides(lines: seq<Line>)
    ensures OldSide(FlipAll(lines)) == NewSide(lines) && NewSide(FlipAll(lines)) == OldSide(lines)
  {
    if lines != [] {
      var front := lines[..|lines| - 1];
      FlipSides(front);
      assert FlipAll(lines)[..|lines| - 1] == FlipAll(front);
    }
  }

  function Other(which: Which): Which {
    match which case Before => After case After => Before
  }

  lemma {:induction false} InvertPlaced(gaps: seq<seq<string>>, hunks: seq<Hunk>, base: int, shift: int)
    requires |gaps| == |hunks| + 1 && Placed(gaps, hunks, base) && base + shift >= 0
    ensures |Invert(hunks, shift)| == |hunks|
    ensures Placed(gaps, Invert(hunks, shift), base + shift)
    ensures forall which :: Weave(gaps, Invert(hunks, shift), which) == Weave(gaps, hunks, Other(which))
    decreases |hunks|
  {
    if hunks != [] {
      var h := hunks[0];
      var shift' := shift + |NewSide(h.lines)| - |OldSide(h.lines)|;
      FlipSides(h.lines);
      InvertPlaced(gaps[1..], hunks[1..], base + |gaps[0]| + |OldSide(h.lines)|, shift');
      assert Invert(hunks, shift)[1..] == Invert(hunks[1..], shift');
    }
  }

  /** The inverse patch takes the patched lines back to the original lines. */
  lemma {:induction false} InverseRestores(lines: seq<string>, hunks: seq<Hunk>)
    requires ApplyFrom(lines, hunks, 0).Some?
    ensures ApplyFrom(ApplyFrom(lines, hunks, 0).value, Invert(hunks, 0), 0) == Some(lines)
  {
    hide ApplyFrom, Invert, Weave;
    var gaps := AppliedGaps(lines, hunks, 0);
    InvertPlaced(gaps, hunks, 0, 0);
    var out := ApplyFrom(lines, hunks, 0).value;
    assert out[0..] == out && lines[0..] == lines;
    GapsApply(out, Invert(hunks, 0), 0, gaps);
  }

  // ----- The loops of applyUnifiedFilePatch -----

  datatype Content = Content(lines: seq<string>, trailingNewline: bool)

  /** splitContentLines */
  function SplitContent(content: string): Content {
    if content == "" then Content([], false)
    else if content[|content| - 1] == '\n' then Content(Split(content[..|content| - 1]), true)
    else Content(Split(content), false)
  }

  /** joinContentLines */
  function JoinContent(c: Content): string {
    if c.lines == [] then "" else Join(c.lines) + (if c.trailingNewline then "\n" else "")
  }

  function Prepend(out: seq<string>, rest: Option<seq<string>>): Option<seq<string>> {
    if rest.None? then None else Some(out + rest.value)
  }

  lemma {:induction false} SidePrefix(lines: seq<Line>, k: nat)
    requires k <= |lines|
    ensures OldSide(lines[..k]) <= OldSide(lines)
    decreases |lines|
  {
    if k == |lines| {
      assert lines[..k] == lines;
    } else {
      SidePrefix(lines[..|lines| - 1], k);
      assert lines[..|lines| - 1][..k] == lines[..k];
    }
  }

  lemma {:induction false} SideStep(lines: seq<Line>, k: nat)
    requires k < |lines|
    ensures OldSide(lines[..k + 1]) == OldSide(lines[..k]) + (if InOld(lines[k]) then [lines[k].text] else [])
    ensures NewSide(lines[..k + 1]) == NewSide(lines[..k]) + (if InNew(lines[k]) then [lines[k].text] else [])
    ensures OldSide(lines[..k + 1]) <= OldSide(lines)
  {
    assert lines[..k + 1][..k] == lines[..k];
    SidePrefix(lines, k + 1);
  }

  // ----- Which error is reported -----

  /** Line k is the first of the expected lines that is not found behind target. */
  predicate FirstMismatch(lines: seq<string>, target: nat, expected: seq<string>, k: nat) {
    && k < |expected| && target + k <= |lines|
    && (target + k == |lines| || lines[target + k] != expected[k])
    && forall j :: 0 <= j < k ==> lines[target + j] == expected[j]
  }

  ghost predicate MismatchOf(lines: seq<string>, target: nat, expected: seq<string>, e: ApplyError) {
    exists k: nat :: FirstMismatch(lines, target, expected, k) && e == LineMismatch(target + k, expected[k])
  }

  /** The first hunk that does not apply is the one the error is about. */
  ghost predicate FailsWith(lines: seq<string>, hunks: seq<Hunk>, pos: nat, e: ApplyError)
    decreases |hunks|
  {
    && hunks != []
    && var h, t := hunks[0], Target(hunks[0]);
    if t < pos || t > |lines| then e == HunkOutsideFile(h.oldStart)
    else if !(OldSide(h.lines) <= lines[t..]) then MismatchOf(lines, t, OldSide(h.lines), e)
    else FailsWith(lines, hunks[1..], t + |OldSide(h.lines)|, e)
  }

  lemma {:induction false} FailsFirst(lines: seq<string>, hunks: seq<Hunk>, pos: nat, e: ApplyError)
    requires hunks != []
    requires var t := Target(hunks[0]);
             if t < pos || t > |lines| then e == HunkOutsideFile(hunks[0].oldStart)
             else !(OldSide(hunks[0].lines) <= lines[t..]) && MismatchOf(lines, t, OldSide(hunks[0].lines), e)
    ensures FailsWith(lines, hunks, pos, e)
  {
    hide OldSide, MismatchOf, Target;
  }

  lemma {:induction false} FailsLater(lines: seq<string>, hunks: seq<Hunk>, pos: nat)
    requires hunks != [] && pos <= Target(hunks[0]) <= |lines| && OldSide(hunks[0].lines) <= lines[Target(hunks[0])..]
    ensures forall e :: FailsWith(lines, hunks[1..], Target(hunks[0]) + |OldSide(hunks[0].lines)|, e) ==> FailsWith(lines, hunks, pos, e)
  {
    hide OldSide, MismatchOf, Target;
  }

  /** One hunk, from its target line on: the body of the outer loop. */
  method ApplyHunk(lines: seq<string>, hunk: Hunk, target: nat) returns (r: Result<seq<string>, ApplyError>, pos: nat)
    requires target <= |lines|
    ensures r.Ok? <==> OldSide(hunk.lines) <= lines[target..]
    ensures r.Ok? ==> r.value == NewSide(hunk.lines) && pos == target + |OldSide(hunk.lines)|
    ensures r.Err? ==> MismatchOf(lines, target, OldSide(hunk.lines), r.error)
  {
    hide OldSide, NewSide;
    pos := target;
    var out := [];
    assert hunk.lines[..0] == [] && OldSide([]) == [] && NewSide([]) == [] by { NoSides(); }
    for k := 0 to |hunk.lines|
      invariant pos == target + |OldSide(hunk.lines[..k])| <= |lines|
      invariant lines[target..pos] == OldSide(hunk.lines[..k])
      invariant out == NewSide(hunk.lines[..k])
    {
      var line := hunk.lines[k];
      SideStep(hunk.lines, k);
      if line.kind == ' ' || line.kind == '-' {
        if pos >= |lines| || lines[pos] != line.text {
          Mismatches(lines, target, OldSide(hunk.lines), pos - target, line.text);
          return Err(LineMismatch(pos, line.text)), pos;
        }
        pos := pos + 1;
      }
      if line.kind == ' ' || line.kind == '+' {
        out := out + [line.text];
      }
    }
    assert hunk.lines[..|hunk.lines|] == hunk.lines;
    return Ok(out), pos;
  }

  lemma {:induction false} NoSides()
    ensures OldSide([]) == [] && NewSide([]) == []
  {
  }

  lemma {:induction false} Mismatches(lines: seq<string>, target: nat, expected: seq<string>, k: nat, text: string)
    requires target + k <= |lines| && lines[target..target + k] + [text] <= expected
    requires target + k == |lines| || lines[target + k] != text
    ensures MismatchOf(lines, target, expected, LineMismatch(target + k, text)) && !(expected <= lines[target..])
  {
    var found := lines[target..target + k] + [text];
    assert found[k] == text && expected[k] == text;
    assert forall j :: 0 <= j < k ==> found[j] == lines[target + j] && expected[j] == found[j];
    assert FirstMismatch(lines, target, expected, k);
  }

  /** All hunks in turn: the outer loop. */
  method ApplyHunks(lines: seq<string>, hunks: seq<Hunk>) returns (r: Result<seq<string>, ApplyError>)
    ensures r.Ok? <==> ApplyFrom(lines, hunks, 0).Some?
    ensures r.Ok? ==> ApplyFrom(lines, hunks, 0) == Some(r.value)
    ensures r.Err? ==> FailsWith(lines, hunks, 0, r.error)
  {
    hide OldSide, NewSide, MismatchOf, FailsWith, ApplyFrom, Prepend;
    var out := [];
    var pos: nat := 0;
    ghost var whole := ApplyFrom(lines, hunks, 0);
    assert hunks[0..] == hunks;
    PrependNothing(whole);
    for i := 0 to |hunks|
      invariant pos <= |lines|
      invariant whole == Prepend(out, ApplyFrom(lines, hunks[i..], pos))
      invariant forall e :: FailsWith(lines, hunks[i..], pos, e) ==> FailsWith(lines, hunks, 0, e)
    {
      var hunk := hunks[i];
      assert hunks[i..][0] == hunk && hunks[i..][1..] == hunks[i + 1..];
      var target := if hunk.oldStart == 0 then 0 else hunk.oldStart - 1;
      PrependStep(lines, hunks[i..], pos, out);
      if target < pos || target > |lines| {
        FailsFirst(lines, hunks[i..], pos, HunkOutsideFile(hunk.oldStart));
        return Err(HunkOutsideFile(hunk.oldStart));
      }
      var body, next := ApplyHunk(lines, hunk, target);
      if body.Err? {
        FailsFirst(lines, hunks[i..], pos, body.error);
        return Err(body.error);
      }
      FailsLater(lines, hunks[i..], pos);
      out := out + lines[pos..target] + body.value;
      pos := next;
    }
    assert hunks[|hunks|..] == [];
    NoHunksLeft(lines, pos, out);
    return Ok(out + lines[pos..]);
  }

  lemma {:induction false} PrependNothing(r: Option<seq<string>>)
    ensures Prepend([], r) == r
  {
    if r.Some? {
      assert [] + r.value == r.value;
    }
  }

  lemma {:induction false} NoHunksLeft(lines: seq<string>, pos: nat, out: seq<string>)
    requires pos <= |lines|
    ensures Prepend(out, ApplyFrom(lines, [], pos)) == Some(out + lines[pos..])
  {
  }

  /** One hunk more, or none at all. */
  lemma {:induction false} PrependStep(lines: seq<string>, hunks: seq<Hunk>, pos: nat, out: seq<string>)
    requires pos <= |lines| && hunks != []
    ensures var t, minus := Target(hunks[0]), OldSide(hunks[0].lines);
            Prepend(out, ApplyFrom(lines, hunks, pos)) ==
            if t < pos || t > |lines| || !(minus <= lines[t..]) then None
            else Prepend(out + lines[pos..t] + NewSide(hunks[0].lines), ApplyFrom(lines, hunks[1..], t + |minus|))
  {
    hide OldSide, NewSide, Target;
    var t, minus := Target(hunks[0]), OldSide(hunks[0].lines);
    if pos <= t <= |lines| && minus <= lines[t..] {
      var rest := ApplyFrom(lines, hunks[1..], t + |minus|);
      if rest.Some? {
        Regroup(out, lines[pos..t], NewSide(hunks[0].lines), rest.value);
      }
    }
  }

  /** The text a file patch turns a file into; found tells whether the file was there. */
  function PatchText(before: string, found: bool, patch: FilePatch): Option<string> {
    var c := SplitContent(before);
    match ApplyFrom(c.lines, patch.hunks, 0)
    case None => None
    case Some(out) =>
      if patch.newPath == DEV_NULL then (if out == [] then Some("") else None)
      else if patch.oldPath == DEV_NULL && found then None
      else Some(JoinContent(Content(out, c.trailingNewline)))
  }

  /** A text of these lines, which ends in a newline if the text before did. */
  function TextOf(lines: seq<string>, before: string): string {
    if lines == [] then ""
    else if before != "" && before[|before| - 1] == '\n' then Join(lines) + "\n"
    else Join(lines)
  }

  lemma {:induction false} JoinedAs(lines: seq<string>, before: string)
    ensures JoinContent(Content(lines, SplitContent(before).trailingNewline)) == TextOf(lines, before)
  {
    hide Join, Split;
    assert Join(lines) + "" == Join(lines);
  }

  /**
    A file patch gives a text exactly when the lines factor as its hunks tell and it neither leaves lines of
    a file it deletes nor adds a file that is there; the text is made of the gaps and the new sides, and
    ends as the text before does.
   */
  lemma {:induction false} PatchTextIff(before: string, found: bool, patch: FilePatch, after: string)
    ensures PatchText(before, found, patch) == Some(after) <==>
            exists gaps :: && Factors(SplitContent(before).lines, patch.hunks, gaps)
                           && var out := Weave(gaps, patch.hunks, After);
                              if patch.newPath == DEV_NULL then out == [] && after == ""
                              else !(patch.oldPath == DEV_NULL && found) && after == TextOf(out, before)
  {
    var lines := SplitContent(before).lines;
    AppliesIffFactors(lines, patch.hunks);
    hide ApplyFrom, Placed, Weave, SplitContent, JoinContent, TextOf;
    if ApplyFrom(lines, patch.hunks, 0).Some? {
      JoinedAs(ApplyFrom(lines, patch.hunks, 0).value, before);
    }
  }

  /** applyUnifiedFilePatch */
  method ApplyUnifiedFilePatch(before: string, found: bool, patch: FilePatch) returns (r: Result<string, ApplyError>)
    ensures r.Ok? <==> PatchText(before, found, patch).Some?
    ensures r.Ok? ==> PatchText(before, found, patch) == Some(r.value)
    ensures r.Err? ==>
              match ApplyFrom(SplitContent(before).lines, patch.hunks, 0)
              case None => FailsWith(SplitContent(before).lines, patch.hunks, 0, r.error)
              case Some(out) => r.error == if patch.newPath == DEV_NULL then DeleteLeavesLines(|out|) else FileAlreadyExists
  {
    hide ApplyFrom, Join, SplitContent, FailsWith;
    var c := SplitContent(before);
    var applied := ApplyHunks(c.lines, patch.hunks);
    if applied.Err? {
      return Err(applied.error);
    }
    var out := applied.value;
    if patch.newPath == DEV_NULL {
      if |out| != 0 {
        return Err(DeleteLeavesLines(|out|));
      }
      return Ok("");
    }
    if patch.oldPath == DEV_NULL && found {
      return Err(FileAlreadyExists);
    }
    return Ok(JoinContent(Content(out, c.trailingNewline)));
  }

  // ----- Whole texts: when the inverse patch undoes a patch -----

  lemma {:induction false} JoinOfSplitContent(s: string)
    ensures JoinContent(SplitContent(s)) == s && NewlineFree(SplitContent(s).lines)
  {
    if s != "" {
      if s[|s| - 1] == '\n' {
        JoinOfSplit(s[..|s| - 1]);
      } else {
        JoinOfSplit(s);
      }
    }
  }

  /** The line sequences with a final-newline bit that survive being written out and read back. */
  predicate Stable(c: Content) {
    if c.lines == [] then !c.trailingNewline
    else c.trailingNewline || c.lines[|c.lines| - 1] != ""
  }

  lemma {:induction false} JoinLast(lines: seq<string>)
    requires lines != []
    ensures Join(lines) == if |lines| == 1 then lines[0] else Join(lines[..|lines| - 1]) + "\n" + lines[|lines| - 1]
  {
    if |lines| > 2 {
      JoinLast(lines[1..]);
      assert lines[1..][..|lines| - 2] == lines[..|lines| - 1][1..];
    } else if |lines| == 2 {
      assert lines[1..] == [lines[1]] && lines[..1] == [lines[0]];
    }
  }

  lemma {:induction false} SplitWithNewline(lines: seq<string>)
    requires lines != [] && NewlineFree(lines)
    ensures SplitContent(JoinContent(Content(lines, true))) == Content(lines, true)
  {
    var s := Join(lines) + "\n";
    assert s[..|s| - 1] == Join(lines);
    SplitOfJoin(lines);
  }

  lemma {:induction false} SplitWithoutNewline(lines: seq<string>)
    requires lines != [] && NewlineFree(lines) && lines[|lines| - 1] != ""
    ensures SplitContent(JoinContent(Content(lines, false))) == Content(lines, false)
  {
    var s, last := Join(lines), lines[|lines| - 1];
    assert JoinContent(Content(lines, false)) == s;
    JoinLast(lines);
    assert s[|s| - 1] == last[|last| - 1] && last[|last| - 1] in last;
    SplitOfJoin(lines);
  }

  lemma {:induction false} SplitEmptyLast(lines: seq<string>)
    requires lines != [] && NewlineFree(lines) && lines[|lines| - 1] == ""
    ensures |SplitContent(JoinContent(Content(lines, false))).lines| == |lines| - 1
  {
    var front := lines[..|lines| - 1];
    JoinLast(lines);
    if front != [] {
      assert JoinContent(Content(lines, false)) == JoinContent(Content(front, true));
      SplitWithNewline(front);
    }
  }

  lemma {:induction false} SplitOfJoinContent(c: Content)
    requires NewlineFree(c.lines)
    ensures SplitContent(JoinContent(c)) == c <==> Stable(c)
    ensures !Stable(c) && c.lines != [] ==> |SplitContent(JoinContent(c)).lines| == |c.lines| - 1
    ensures !Stable(c) && c.lines == [] ==> SplitContent(JoinContent(c)) == Content([], false)
  {
    if c.lines != [] {
      if c.trailingNewline {
        SplitWithNewline(c.lines);
      } else if c.lines[|c.lines| - 1] == "" {
        SplitEmptyLast(c.lines);
      } else {
        SplitWithoutNewline(c.lines);
      }
    }
  }

  function ApplyText(s: string, hunks: seq<Hunk>): Option<string> {
    var c := SplitContent(s);
    match ApplyFrom(c.lines, hunks, 0)
    case None => None
    case Some(out) => Some(JoinContent(Content(out, c.trailingNewline)))
  }

  predicate HunksNewlineFree(hunks: seq<Hunk>) {
    forall h, l :: h in hunks && l in h.lines ==> '\n' !in l.text
  }

  lemma {:induction false} SidesNewlineFree(lines: seq<Line>)
    requires forall l :: l in lines ==> '\n' !in l.text
    ensures NewlineFree(OldSide(lines)) && NewlineFree(NewSide(lines))
  {
    if lines != [] {
      SidesNewlineFree(lines[..|lines| - 1]);
      assert lines[|lines| - 1] in lines;
    }
  }

  lemma {:induction false} ConcatNewlineFree(a: seq<string>, b: seq<string>)
    ensures NewlineFree(a + b) <==> NewlineFree(a) && NewlineFree(b)
  {
    if NewlineFree(a + b) {
      assert forall i :: 0 <= i < |a| ==> a[i] == (a + b)[i];
      assert forall i :: 0 <= i < |b| ==> b[i] == (a + b)[|a| + i];
    }
  }

  lemma {:induction false} AppliedNewlineFree(lines: seq<string>, hunks: seq<Hunk>, pos: nat)
    requires pos <= |lines| && ApplyFrom(lines, hunks, pos).Some?
    requires NewlineFree(lines) && HunksNewlineFree(hunks)
    ensures NewlineFree(ApplyFrom(lines, hunks, pos).value)
    decreases |hunks|
  {
    if hunks != [] {
      var h, t := hunks[0], Target(hunks[0]);
      var next := t + |OldSide(h.lines)|;
      assert h in hunks;
      SidesNewlineFree(h.lines);
      AppliedNewlineFree(lines, hunks[1..], next);
      ConcatNewlineFree(lines[pos..t], NewSide(h.lines));
      ConcatNewlineFree(lines[pos..t] + NewSide(h.lines), ApplyFrom(lines, hunks[1..], next).value);
    }
  }

  lemma {:induction false} FlipNewlineFree(lines: seq<Line>)
    requires forall l :: l in lines ==> '\n' !in l.text
    ensures forall l :: l in FlipAll(lines) ==> '\n' !in l.text
  {
    forall l | l in FlipAll(lines)
      ensures '\n' !in l.text
    {
      var i :| 0 <= i < |lines| && FlipAll(lines)[i] == l;
      assert lines[i] in lines;
    }
  }

  lemma {:induction false} InvertShape(hunks: seq<Hunk>, shift: int)
    ensures Growth(Invert(hunks, shift)) == -Growth(hunks)
    ensures HunksNewlineFree(hunks) ==> HunksNewlineFree(Invert(hunks, shift))
    decreases |hunks|
  {
    if hunks != [] {
      var h := hunks[0];
      var shift' := shift + |NewSide(h.lines)| - |OldSide(h.lines)|;
      FlipSides(h.lines);
      InvertShape(hunks[1..], shift');
      assert Invert(hunks, shift)[1..] == Invert(hunks[1..], shift');
      if HunksNewlineFree(hunks) {
        assert h in hunks && forall x :: x in hunks[1..] ==> x in hunks;
        FlipNewlineFree(h.lines);
      }
    }
  }

  /**
    On whole texts the inverse patch brings the file back exactly when the patched lines, with the
    final-newline bit they inherit, can be written to a file and read back unchanged.
   */
  lemma {:induction false} TextUndoneIffStable(before: string, hunks: seq<Hunk>)
    requires HunksNewlineFree(hunks)
    requires ApplyText(before, hunks).Some?
    ensures var c := SplitContent(before);
            var patched := Content(ApplyFrom(c.lines, hunks, 0).value, c.trailingNewline);
            ApplyText(ApplyText(before, hunks).value, Invert(hunks, 0)) == Some(before) <==> Stable(patched)
  {
    var c, inverse := SplitContent(before), Invert(hunks, 0);
    var patched := Content(ApplyFrom(c.lines, hunks, 0).value, c.trailingNewline);
    JoinOfSplitContent(before);
    AppliedNewlineFree(c.lines, hunks, 0);
    SplitOfJoinContent(patched);
    InverseRestores(c.lines, hunks);
    var back := SplitContent(JoinContent(patched));
    if !Stable(patched) {
      if patched.lines == [] {
        assert c.lines != [] && JoinContent(Content(c.lines, false)) != before;
      } else if ApplyFrom(back.lines, inverse, 0).Some? {
        var undone := Content(ApplyFrom(back.lines, inverse, 0).value, back.trailingNewline);
        JoinOfSplitContent(JoinContent(patched));
        InvertShape(hunks, 0);
        AppliedNewlineFree(back.lines, inverse, 0);
        AppliedLength(back.lines, inverse, 0);
        AppliedLength(c.lines, hunks, 0);
        SplitOfJoinContent(undone);
        assert |SplitContent(JoinContent(undone)).lines| < |c.lines|;
      }
    }
  }

  // ----- The same condition on the text and the hunks -----

  /** The last line the patched file has, found from the last hunk and the gap behind it. */
  function LastAfter(lines: seq<string>, hunks: seq<Hunk>): Option<string>
    decreases |hunks|
  {
    if hunks == [] then (if lines == [] then None else Some(lines[|lines| - 1]))
    else
      var h := hunks[|hunks| - 1];
      var t, plus := Target(h), NewSide(h.lines);
      if lines != [] && t + |OldSide(h.lines)| < |lines| then Some(lines[|lines| - 1])
      else if plus != [] then Some(plus[|plus| - 1])
      else if 0 <= t <= |lines| then LastAfter(lines[..t], hunks[..|hunks| - 1])
      else None
  }

  /**
    With a final newline some line must be left; without one the last line that is left must not be empty.
   */
  predicate Undoable(before: string, hunks: seq<Hunk>) {
    var c := SplitContent(before);
    if c.trailingNewline then |c.lines| + Growth(hunks) != 0 else LastAfter(c.lines, hunks) != Some("")
  }

  lemma {:induction false} AppliedLast(lines: seq<string>, h: Hunk, pos: nat)
    requires pos <= |lines| && ApplyFrom(lines, [h], pos).Some?
    ensures var t, minus := Target(h), OldSide(h.lines);
            && pos <= t <= |lines| && minus <= lines[t..] && ApplyFrom(lines[..t], [], pos) == Some(lines[pos..t])
            && ApplyFrom(lines, [h], pos) == Some(lines[pos..t] + NewSide(h.lines) + lines[t + |minus|..])
  {
    hide OldSide, NewSide, Target;
    ApplyStep(lines, [h], pos);
    assert [h][1..] == [];
    assert lines[..Target(h)][pos..] == lines[pos..Target(h)];
  }

  lemma {:induction false} AppliedSplits(lines: seq<string>, front: seq<Hunk>, h: Hunk, pos: nat)
    requires pos <= |lines| && ApplyFrom(lines, front + [h], pos).Some?
    ensures var t, minus := Target(h), OldSide(h.lines);
            && pos <= t <= |lines| && minus <= lines[t..]
            && ApplyFrom(lines[..t], front, pos).Some?
            && ApplyFrom(lines, front + [h], pos).value ==
               ApplyFrom(lines[..t], front, pos).value + NewSide(h.lines) + lines[t + |minus|..]
    decreases |front|
  {
    hide *;
    var t, end := Target(h), Target(h) + |OldSide(h.lines)|;
    if front == [] {
      assert front + [h] == [h];
      AppliedLast(lines, h, pos);
    } else {
      var s := Target(front[0]);
      var next := s + |OldSide(front[0].lines)|;
      assert (front + [h])[0] == front[0] && (front + [h])[1..] == front[1..] + [h];
      ApplyStep(lines, front + [h], pos);
      AppliedSplits(lines, front[1..], h, next);
      PrefixHolds(lines, s, t, OldSide(front[0].lines));
      ApplyCons(lines[..t], front, pos);
      assert lines[..t][pos..s] == lines[pos..s];
      Regroup(lines[pos..s] + NewSide(front[0].lines), ApplyFrom(lines[..t], front[1..], next).value, NewSide(h.lines), lines[end..]);
    }
  }

  lemma {:induction false} PrefixHolds(lines: seq<string>, s: nat, t: nat, minus: seq<string>)
    requires s + |minus| <= t <= |lines| && minus <= lines[s..]
    ensures minus <= lines[..t][s..]
  {
    assert lines[..t][s..] == lines[s..t];
  }

  function LastOf(lines: seq<string>): Option<string> {
    if lines == [] then None else Some(lines[|lines| - 1])
  }

  lemma {:induction false} LastOfThree(a: seq<string>, b: seq<string>, c: seq<string>)
    ensures LastOf(a + b + c) == if c != [] then LastOf(c) else if b != [] then LastOf(b) else LastOf(a)
  {
  }

  lemma {:induction false} LastAfterStep(lines: seq<string>, front: seq<Hunk>, h: Hunk)
    requires 0 <= Target(h) && Target(h) + |OldSide(h.lines)| <= |lines|
    ensures LastAfter(lines, front + [h]) ==
            (var tail := lines[Target(h) + |OldSide(h.lines)|..];
             if tail != [] then LastOf(tail)
             else if NewSide(h.lines) != [] then LastOf(NewSide(h.lines))
             else LastAfter(lines[..Target(h)], front))
  {
    hide OldSide, NewSide, Target;
    var all := front + [h];
    assert all[|all| - 1] == h && all[..|all| - 1] == front;
  }

  lemma {:induction false} LastIsLast(lines: seq<string>, hunks: seq<Hunk>)
    requires ApplyFrom(lines, hunks, 0).Some?
    ensures LastAfter(lines, hunks) == LastOf(ApplyFrom(lines, hunks, 0).value)
    decreases |hunks|
  {
    if hunks == [] {
      assert lines[0..] == lines;
    } else {
      hide OldSide, NewSide, Target, ApplyFrom, LastAfter, LastOf;
      var n := |hunks| - 1;
      var h, front := hunks[n], hunks[..n];
      assert hunks == front + [h];
      AppliedSplits(lines, front, h, 0);
      var t := Target(h);
      LastIsLast(lines[..t], front);
      LastAfterStep(lines, front, h);
      LastOfThree(ApplyFrom(lines[..t], front, 0).value, NewSide(h.lines), lines[t + |OldSide(h.lines)|..]);
    }
  }

  /** On whole texts the inverse patch brings the file back exactly when the text and the hunks leave a readable end. */
  lemma {:induction false} TextUndoneIff(before: string, hunks: seq<Hunk>)
    requires HunksNewlineFree(hunks) && ApplyText(before, hunks).Some?
    ensures ApplyText(ApplyText(before, hunks).value, Invert(hunks, 0)) == Some(before) <==> Undoable(before, hunks)
  {
    hide ApplyFrom, Growth, LastAfter, Invert, SplitContent, JoinContent;
    var c := SplitContent(before);
    TextUndoneIffStable(before, hunks);
    LastIsLast(c.lines, hunks);
    AppliedLength(c.lines, hunks, 0);
  }

  /** Deleting every line loses the final newline, so the inverse patch does not bring it back. */
  lemma {:induction false} TextUndoCanFail(hunks: seq<Hunk>)
    requires hunks == [Hunk(1, 1, 0, 0, [Line('-', "a")])]
    ensures ApplyText("a\n", hunks) == Some("") && ApplyText("", Invert(hunks, 0)) == Some("a")
  {
    var lines := hunks[0].lines;
    assert lines[..0] == [] && OldSide(lines) == ["a"] && NewSide(lines) == [];
    SplitSingle("a");
    assert "a\n"[..1] == "a";
    assert ApplyFrom(["a"], hunks, 0) == Some([]);
    InverseRestores(["a"], hunks);
  }
}
