/**
  workspace/unified.go: exactly which diffs make the parser read the first byte of an empty line, which
  in the source is a panic.
 */
module EmptyLines {
  import opened Wrappers
  import opened Text
  import opened UnifiedPatch
  import opened UnifiedParse

  // ----- One hunk -----

  function OldLines(raw: seq<string>): nat {
    if raw == [] then 0 else (if raw[0] == "" then 0 else SeenOld(raw[0][0])) + OldLines(raw[1..])
  }

  function NewLines(raw: seq<string>): nat {
    if raw == [] then 0 else (if raw[0] == "" then 0 else SeenNew(raw[0][0])) + NewLines(raw[1..])
  }

  /** Line j is a marker, or a line of the hunk within its counts. */
  ghost predicate Passes(raw: seq<string>, oldCount: int, newCount: int, j: nat)
    requires j < |raw|
  {
    || raw[j] == NO_NEWLINE_MARKER
    || (&& raw[j] != "" && IsKind(raw[j][0])
        && OldLines(raw[..j + 1]) <= oldCount && NewLines(raw[..j + 1]) <= newCount)
  }

  /** Lines are still to come behind the first j. */
  ghost predicate Wanting(raw: seq<string>, oldCount: int, newCount: int, j: nat)
    requires j <= |raw|
  {
    OldLines(raw[..j]) != oldCount || NewLines(raw[..j]) != newCount
  }

  /** Line k is empty, is not the last, and is read while lines of the hunk are still to come. */
  ghost predicate EmptyLineAt(raw: seq<string>, oldCount: int, newCount: int, k: nat) {
    && k + 1 < |raw| && raw[k] == ""
    && (forall j :: 0 <= j < k ==> Passes(raw, oldCount, newCount, j))
    && (forall j :: 0 <= j <= k ==> Wanting(raw, oldCount, newCount, j))
  }

  lemma {:induction false} MarkerCountsNothing(line: string)
    requires line == NO_NEWLINE_MARKER
    ensures line != "" && line[0] == '\\' && !IsKind(line[0]) && SeenOld(line[0]) == 0 && SeenNew(line[0]) == 0
  {
  }

  lemma {:induction false} CountsFrom(line: string, rest: seq<string>, j: nat)
    requires j <= |rest| && line != ""
    ensures ([line] + rest)[..j + 1] == [line] + rest[..j]
    ensures OldLines(([line] + rest)[..j + 1]) == SeenOld(line[0]) + OldLines(rest[..j])
    ensures NewLines(([line] + rest)[..j + 1]) == SeenNew(line[0]) + NewLines(rest[..j])
  {
    assert ([line] + rest[..j])[1..] == rest[..j];
  }

  lemma {:induction false} LaterLine(line: string, rest: seq<string>, o: int, n: int, k: nat)
    requires line != "" && k < |rest|
    ensures Wanting([line] + rest, o, n, k + 1) <==> Wanting(rest, o - SeenOld(line[0]), n - SeenNew(line[0]), k)
    ensures Passes([line] + rest, o, n, k + 1) <==> Passes(rest, o - SeenOld(line[0]), n - SeenNew(line[0]), k)
  {
    hide OldLines, NewLines, SeenOld, SeenNew;
    CountsFrom(line, rest, k);
    CountsFrom(line, rest, k + 1);
    assert ([line] + rest)[k + 1] == rest[k];
  }

  lemma {:induction false} FirstLine(line: string, rest: seq<string>, o: int, n: int)
    requires line != ""
    ensures Wanting([line] + rest, o, n, 0) <==> o != 0 || n != 0
    ensures Passes([line] + rest, o, n, 0) <==>
            line == NO_NEWLINE_MARKER || (IsKind(line[0]) && SeenOld(line[0]) <= o && SeenNew(line[0]) <= n)
  {
    var raw := [line] + rest;
    assert raw[..0] == [] && rest[..0] == [] && OldLines([]) == 0 && NewLines([]) == 0;
    hide SeenOld, SeenNew;
    CountsFrom(line, rest, 0);
    hide OldLines, NewLines;
  }

  /** An empty line is reached behind the first line exactly when it is reached in the rest. */
  lemma {:induction false} EmptyLineLater(line: string, rest: seq<string>, o: int, n: int, k: nat)
    requires line != ""
    ensures EmptyLineAt([line] + rest, o, n, k + 1) <==>
            && Passes([line] + rest, o, n, 0) && Wanting([line] + rest, o, n, 0)
            && EmptyLineAt(rest, o - SeenOld(line[0]), n - SeenNew(line[0]), k)
  {
    hide Passes, Wanting, SeenOld, SeenNew;
    var raw, o', n' := [line] + rest, o - SeenOld(line[0]), n - SeenNew(line[0]);
    if k < |rest| {
      forall j | 0 <= j <= k
        ensures Wanting(raw, o, n, j + 1) <==> Wanting(rest, o', n', j)
        ensures Passes(raw, o, n, j + 1) <==> Passes(rest, o', n', j)
      {
        LaterLine(line, rest, o, n, j);
      }
      if EmptyLineAt(raw, o, n, k + 1) {
        forall j | 0 <= j <= k
          ensures Wanting(rest, o', n', j) && (j < k ==> Passes(rest, o', n', j))
        {
          assert Wanting(raw, o, n, j + 1);
          if j < k {
            assert Passes(raw, o, n, j + 1);
          }
        }
      }
      if Passes(raw, o, n, 0) && Wanting(raw, o, n, 0) && EmptyLineAt(rest, o', n', k) {
        forall j | 0 <= j <= k + 1
          ensures Wanting(raw, o, n, j) && (j < k + 1 ==> Passes(raw, o, n, j))
        {
          if j > 0 {
            assert Wanting(rest, o', n', j - 1);
            if j < k + 1 {
              assert Passes(rest, o', n', j - 1);
            }
          }
        }
      }
    }
  }

  lemma {:induction false} EmptyLineFirst(raw: seq<string>, o: int, n: int)
    requires raw != [] && raw[0] == ""
    ensures EmptyLineAt(raw, o, n, 0) <==> |raw| > 1 && (o != 0 || n != 0)
    ensures forall k: nat :: EmptyLineAt(raw, o, n, k) ==> k == 0
  {
    assert raw[..0] == [] && OldLines([]) == 0 && NewLines([]) == 0;
    assert Wanting(raw, o, n, 0) <==> o != 0 || n != 0;
    forall k: nat | EmptyLineAt(raw, o, n, k)
      ensures k == 0
    {
      assert k > 0 ==> Passes(raw, o, n, 0);
      assert NO_NEWLINE_MARKER != "";
    }
  }

  ghost predicate ReachesEmptyLine(raw: seq<string>, o: int, n: int) {
    exists k: nat :: EmptyLineAt(raw, o, n, k)
  }

  lemma {:induction false} ReachesLater(line: string, rest: seq<string>, o: int, n: int)
    requires line != ""
    ensures ReachesEmptyLine([line] + rest, o, n) <==>
            && Passes([line] + rest, o, n, 0) && Wanting([line] + rest, o, n, 0)
            && ReachesEmptyLine(rest, o - SeenOld(line[0]), n - SeenNew(line[0]))
  {
    hide EmptyLineAt, Passes, Wanting, SeenOld, SeenNew;
    var raw, o', n' := [line] + rest, o - SeenOld(line[0]), n - SeenNew(line[0]);
    if ReachesEmptyLine(raw, o, n) {
      var k: nat :| EmptyLineAt(raw, o, n, k);
      NotTheFirst(raw, o, n);
      EmptyLineLater(line, rest, o, n, k - 1);
    }
    if Passes(raw, o, n, 0) && Wanting(raw, o, n, 0) && ReachesEmptyLine(rest, o', n') {
      var k: nat :| EmptyLineAt(rest, o', n', k);
      EmptyLineLater(line, rest, o, n, k);
      assert EmptyLineAt(raw, o, n, k + 1);
    }
  }

  lemma {:induction false} NotTheFirst(raw: seq<string>, o: int, n: int)
    requires raw != [] && raw[0] != ""
    ensures !EmptyLineAt(raw, o, n, 0)
  {
  }

  lemma {:induction false} NoLines(o: int, n: int)
    ensures !ReachesEmptyLine([], o, n)
  {
  }

  lemma {:induction false} NothingWanting(raw: seq<string>)
    ensures !ReachesEmptyLine(raw, 0, 0)
  {
    assert raw[..0] == [] && OldLines([]) == 0 && NewLines([]) == 0;
    assert !Wanting(raw, 0, 0, 0);
    hide Wanting, Passes;
  }

  /** Reading the lines of a hunk panics exactly when an empty line that is not the last is reached. */
  lemma {:induction false} BodyPanicsIff(raw: seq<string>, o: int, n: int)
    ensures ParseBody(raw, o, n) == Failed(EmptyLinePanic) <==> ReachesEmptyLine(raw, o, n)
    decreases |raw|
  {
    hide ReachesEmptyLine;
    if raw == [] {
      NoLines(o, n);
    } else if o == 0 && n == 0 {
      NothingWanting(raw);
    } else if raw[0] == "" {
      EmptyLineFirst(raw, o, n);
      FirstIsReached(raw, o, n);
    } else {
      var line, rest := raw[0], raw[1..];
      assert raw == [line] + rest;
      FirstLine(line, rest, o, n);
      ReachesLater(line, rest, o, n);
      if line == NO_NEWLINE_MARKER {
        MarkerCountsNothing(line);
        BodyPanicsIff(rest, o, n);
      } else if IsKind(line[0]) {
        hide Passes, Wanting;
        BodyPanicsIff(rest, o - SeenOld(line[0]), n - SeenNew(line[0]));
      }
    }
  }

  lemma {:induction false} FirstIsReached(raw: seq<string>, o: int, n: int)
    requires raw != [] && raw[0] == ""
    ensures ReachesEmptyLine(raw, o, n) <==> EmptyLineAt(raw, o, n, 0)
  {
    EmptyLineFirst(raw, o, n);
    hide EmptyLineAt;
  }

  // ----- Where a hunk ends -----

  /** The first k lines are lines of the hunk or markers, and they are just as many as the counts ask for. */
  ghost predicate CompleteAt(raw: seq<string>, oldCount: int, newCount: int, k: nat) {
    && k <= |raw| && !Wanting(raw, oldCount, newCount, k)
    && forall j :: 0 <= j < k ==> Passes(raw, oldCount, newCount, j) && Wanting(raw, oldCount, newCount, j)
  }

  lemma {:induction false} CompleteOnce(raw: seq<string>, o: int, n: int, j: nat, k: nat)
    requires CompleteAt(raw, o, n, j) && CompleteAt(raw, o, n, k)
    ensures j == k
  {
    hide Passes, Wanting;
  }

  lemma {:induction false} CompleteLater(line: string, rest: seq<string>, o: int, n: int, k: nat)
    requires line != ""
    ensures CompleteAt([line] + rest, o, n, k + 1) <==>
            && Passes([line] + rest, o, n, 0) && Wanting([line] + rest, o, n, 0)
            && CompleteAt(rest, o - SeenOld(line[0]), n - SeenNew(line[0]), k)
  {
    hide Passes, Wanting, SeenOld, SeenNew;
    var raw, o', n' := [line] + rest, o - SeenOld(line[0]), n - SeenNew(line[0]);
    if k <= |rest| {
      WantingLater(line, rest, o, n, k);
      forall j | 0 <= j < k
        ensures Wanting(raw, o, n, j + 1) <==> Wanting(rest, o', n', j)
        ensures Passes(raw, o, n, j + 1) <==> Passes(rest, o', n', j)
      {
        LaterLine(line, rest, o, n, j);
      }
      if CompleteAt(raw, o, n, k + 1) {
        forall j | 0 <= j < k
          ensures Passes(rest, o', n', j) && Wanting(rest, o', n', j)
        {
          assert Passes(raw, o, n, j + 1) && Wanting(raw, o, n, j + 1);
        }
      }
      if Passes(raw, o, n, 0) && Wanting(raw, o, n, 0) && CompleteAt(rest, o', n', k) {
        forall j | 0 <= j < k + 1
          ensures Passes(raw, o, n, j) && Wanting(raw, o, n, j)
        {
          if j > 0 {
            assert Passes(rest, o', n', j - 1) && Wanting(rest, o', n', j - 1);
          }
        }
      }
    }
  }

  lemma {:induction false} WantingLater(line: string, rest: seq<string>, o: int, n: int, k: nat)
    requires line != "" && k <= |rest|
    ensures Wanting([line] + rest, o, n, k + 1) <==> Wanting(rest, o - SeenOld(line[0]), n - SeenNew(line[0]), k)
  {
    hide OldLines, NewLines, SeenOld, SeenNew;
    CountsFrom(line, rest, k);
  }

  lemma {:induction false} WantsAtStart(raw: seq<string>, o: int, n: int)
    ensures Wanting(raw, o, n, 0) <==> o != 0 || n != 0
    ensures CompleteAt(raw, o, n, 0) <==> o == 0 && n == 0
  {
    assert raw[..0] == [] && OldLines([]) == 0 && NewLines([]) == 0;
  }

  lemma {:induction false} EmptyNeverPasses(raw: seq<string>, o: int, n: int, k: nat)
    requires raw != [] && raw[0] == "" && k > 0
    ensures !CompleteAt(raw, o, n, k)
  {
    assert NO_NEWLINE_MARKER != "";
    assert !Passes(raw, o, n, 0);
  }

  /** The lines of the hunk that were read, and whether they are as many as the counts ask for. */
  ghost predicate ReadsTo(raw: seq<string>, o: int, n: int, k: nat) {
    && ParseBody(raw, o, n).Parsed? && k <= |raw| && ParseBody(raw, o, n).rest == raw[k..]
    && Counted(ParseBody(raw, o, n).value, o, n)
  }

  ghost predicate Counted(lines: seq<Line>, o: int, n: int) {
    OldCount(lines) == o && NewCount(lines) == n
  }

  function OldCount(lines: seq<Line>): nat {
    if lines == [] then 0 else SeenOld(lines[0].kind) + OldCount(lines[1..])
  }

  function NewCount(lines: seq<Line>): nat {
    if lines == [] then 0 else SeenNew(lines[0].kind) + NewCount(lines[1..])
  }

  lemma {:induction false} CountedCons(l: Line, lines: seq<Line>, o: int, n: int)
    ensures Counted([l] + lines, o, n) <==> Counted(lines, o - SeenOld(l.kind), n - SeenNew(l.kind))
  {
    assert ([l] + lines)[1..] == lines;
  }

  lemma {:induction false} CountsAreSides(lines: seq<Line>)
    requires forall l :: l in lines ==> IsKind(l.kind)
    ensures OldCount(lines) == |OldSide(lines)| && NewCount(lines) == |NewSide(lines)|
    decreases |lines|
  {
    if lines != [] {
      var front, l := lines[..|lines| - 1], lines[|lines| - 1];
      assert forall x :: x in front ==> x in lines;
      CountsAreSides(front);
      CountSnoc(front, l);
      assert front + [l] == lines && l in lines;
    }
  }

  lemma {:induction false} CountSnoc(lines: seq<Line>, l: Line)
    ensures OldCount(lines + [l]) == OldCount(lines) + SeenOld(l.kind)
    ensures NewCount(lines + [l]) == NewCount(lines) + SeenNew(l.kind)
    decreases |lines|
  {
    if lines == [] {
      assert lines + [l] == [l] && [l][1..] == [];
    } else {
      CountSnoc(lines[1..], l);
      assert (lines + [l])[1..] == lines[1..] + [l];
    }
  }

  lemma {:induction false} KindsRead(raw: seq<string>, o: int, n: int)
    requires ParseBody(raw, o, n).Parsed?
    ensures forall l :: l in ParseBody(raw, o, n).value ==> IsKind(l.kind)
    decreases |raw|
  {
    if raw != [] && !(o == 0 && n == 0) && raw[0] != "" {
      if raw[0] == NO_NEWLINE_MARKER {
        KindsRead(raw[1..], o, n);
      } else {
        KindsRead(raw[1..], o - SeenOld(raw[0][0]), n - SeenNew(raw[0][0]));
      }
    }
  }

  /** The lines of a hunk are read to line k with the right counts exactly when the hunk is complete there. */
  lemma {:induction false} ReadsToIff(raw: seq<string>, o: int, n: int)
    ensures forall k: nat :: CompleteAt(raw, o, n, k) ==> ReadsTo(raw, o, n, k)
    ensures ParseBody(raw, o, n).Parsed? && Counted(ParseBody(raw, o, n).value, o, n) ==>
              exists k: nat :: CompleteAt(raw, o, n, k)
    decreases |raw|
  {
    hide CompleteAt, Wanting, Passes, SeenOld, SeenNew, Counted;
    WantsAtStart(raw, o, n);
    if o == 0 && n == 0 {
      DoneAtOnce(raw);
    } else if raw == [] || raw[0] == "" {
      StopsShort(raw, o, n);
    } else {
      var line, rest := raw[0], raw[1..];
      assert raw == [line] + rest;
      FirstLine(line, rest, o, n);
      if line == NO_NEWLINE_MARKER {
        MarkerCountsNothing(line);
        ReadsToIff(rest, o, n);
        StepReads(line, rest, o, n, o, n);
      } else if IsKind(line[0]) {
        var o', n' := o - SeenOld(line[0]), n - SeenNew(line[0]);
        ReadsToIff(rest, o', n');
        if ParseBody(rest, o', n').Parsed? {
          CountedCons(Line(line[0], line[1..]), ParseBody(rest, o', n').value, o, n);
        }
        StepReads(line, rest, o, n, o', n');
      } else {
        NeverComplete(line, rest, o, n);
      }
    }
  }

  lemma {:induction false} DoneAtOnce(raw: seq<string>)
    ensures CompleteAt(raw, 0, 0, 0) && ReadsTo(raw, 0, 0, 0)
    ensures forall k: nat :: CompleteAt(raw, 0, 0, k) ==> k == 0
  {
    WantsAtStart(raw, 0, 0);
    assert raw[0..] == raw;
    forall k: nat | CompleteAt(raw, 0, 0, k)
      ensures k == 0
    {
      CompleteOnce(raw, 0, 0, 0, k);
    }
  }

  lemma {:induction false} StopsShort(raw: seq<string>, o: int, n: int)
    requires (raw == [] || raw[0] == "") && !(o == 0 && n == 0)
    ensures forall k: nat :: !CompleteAt(raw, o, n, k)
    ensures ParseBody(raw, o, n).Parsed? ==> !Counted(ParseBody(raw, o, n).value, o, n)
  {
    forall k: nat
      ensures !CompleteAt(raw, o, n, k)
    {
      WantsAtStart(raw, o, n);
      if raw != [] && k > 0 {
        EmptyNeverPasses(raw, o, n, k);
      }
    }
  }

  lemma {:induction false} NeverComplete(line: string, rest: seq<string>, o: int, n: int)
    requires line != "" && !Passes([line] + rest, o, n, 0) && Wanting([line] + rest, o, n, 0)
    ensures forall k: nat :: !CompleteAt([line] + rest, o, n, k)
  {
    hide Passes, Wanting;
  }

  lemma {:induction false} StepReads(line: string, rest: seq<string>, o: int, n: int, o': int, n': int)
    requires line != "" && !(o == 0 && n == 0) && o' == o - SeenOld(line[0]) && n' == n - SeenNew(line[0])
    requires line == NO_NEWLINE_MARKER || IsKind(line[0])
    requires Wanting([line] + rest, o, n, 0)
    requires Passes([line] + rest, o, n, 0) <==>
             line == NO_NEWLINE_MARKER || (IsKind(line[0]) && SeenOld(line[0]) <= o && SeenNew(line[0]) <= n)
    requires line != NO_NEWLINE_MARKER && ParseBody(rest, o', n').Parsed? ==>
               (Counted([Line(line[0], line[1..])] + ParseBody(rest, o', n').value, o, n) <==>
                Counted(ParseBody(rest, o', n').value, o', n'))
    requires line == NO_NEWLINE_MARKER ==> o' == o && n' == n
    requires forall k: nat :: CompleteAt(rest, o', n', k) ==> ReadsTo(rest, o', n', k)
    requires ParseBody(rest, o', n').Parsed? && Counted(ParseBody(rest, o', n').value, o', n') ==>
               exists k: nat :: CompleteAt(rest, o', n', k)
    ensures var raw := [line] + rest;
            && (forall k: nat :: CompleteAt(raw, o, n, k) ==> ReadsTo(raw, o, n, k))
            && (ParseBody(raw, o, n).Parsed? && Counted(ParseBody(raw, o, n).value, o, n) ==>
                  exists k: nat :: CompleteAt(raw, o, n, k))
  {
    hide CompleteAt, Wanting, Passes, SeenOld, SeenNew, Counted;
    var raw := [line] + rest;
    assert raw[0] == line && raw[1..] == rest;
    forall k: nat | CompleteAt(raw, o, n, k)
      ensures ReadsTo(raw, o, n, k)
    {
      NotAtOnce(raw, o, n, k);
      CompleteLater(line, rest, o, n, k - 1);
      assert ReadsTo(rest, o', n', k - 1);
      assert raw[k..] == rest[k - 1..];
    }
    if ParseBody(raw, o, n).Parsed? && Counted(ParseBody(raw, o, n).value, o, n) {
      var k: nat :| CompleteAt(rest, o', n', k);
      CompleteLater(line, rest, o, n, k);
      assert CompleteAt(raw, o, n, k + 1);
    }
  }

  lemma {:induction false} NotAtOnce(raw: seq<string>, o: int, n: int, k: nat)
    requires CompleteAt(raw, o, n, k) && Wanting(raw, o, n, 0)
    ensures k > 0
  {
    hide Wanting, Passes;
  }

  // ----- Whole diffs -----

  /** The hunk with this header is complete with the first k lines behind it. */
  ghost predicate HunkEndsAt(raw: seq<string>, k: nat) {
    && raw != [] && HasPrefix(raw[0], "@@ ") && ParseHeader(raw[0]).Ok?
    && CompleteAt(raw[1..], ParseHeader(raw[0]).value.oldCount, ParseHeader(raw[0]).value.newCount, k)
  }

  /** The lines from each hunk header on that are read in one file, and the lines behind the file if its hunks are complete. */
  ghost function HunksRead(raw: seq<string>): (seq<seq<string>>, Option<seq<string>>)
    decreases |raw|
  {
    if raw == [] || HasPrefix(raw[0], "--- ") then ([], Some(raw))
    else if raw[0] == "" && |raw| == 1 then ([], Some([]))
    else if !HasPrefix(raw[0], "@@ ") then HunksRead(raw[1..])
    else if exists k: nat :: HunkEndsAt(raw, k) then
      var k: nat :| HunkEndsAt(raw, k);
      var later := HunksRead(raw[1..][k..]);
      ([raw] + later.0, later.1)
    else ([raw], None)
  }

  /** The lines from each hunk header on that are read in a diff. */
  ghost function HunksReadIn(raw: seq<string>): seq<seq<string>>
    decreases |raw|
  {
    if raw == [] then []
    else if !HasPrefix(raw[0], "--- ") then HunksReadIn(raw[1..])
    else if |raw| < 2 || !HasPrefix(raw[1], "+++ ") then []
    else
      var file := HunksRead(raw[2..]);
      file.0 + (if file.0 != [] && file.1.Some? && |file.1.value| < |raw| then HunksReadIn(file.1.value) else [])
  }

  lemma {:induction false} HunkParsesIff(raw: seq<string>)
    requires raw != [] && HasPrefix(raw[0], "@@ ")
    ensures ParseHunk(raw).Parsed? <==> exists k: nat :: HunkEndsAt(raw, k)
    ensures forall k: nat :: HunkEndsAt(raw, k) ==> ParseHunk(raw).Parsed? && ParseHunk(raw).rest == raw[1..][k..]
  {
    hide ParseHeader, ParseBody, CompleteAt, HasPrefix, Counted, OldSide, NewSide;
    if ParseHeader(raw[0]).Ok? {
      var h := ParseHeader(raw[0]).value;
      ReadsToIff(raw[1..], h.oldCount, h.newCount);
      if ParseBody(raw[1..], h.oldCount, h.newCount).Parsed? {
        var lines := ParseBody(raw[1..], h.oldCount, h.newCount).value;
        KindsRead(raw[1..], h.oldCount, h.newCount);
        CountedIsAgreed(h, lines);
      }
      if ParseHunk(raw).Parsed? {
        var k: nat :| CompleteAt(raw[1..], h.oldCount, h.newCount, k);
        assert HunkEndsAt(raw, k);
      }
    }
  }

  lemma {:induction false} CountedIsAgreed(h: Hunk, lines: seq<Line>)
    requires forall l :: l in lines ==> IsKind(l.kind)
    ensures CountsAgree(h.(lines := lines)) <==> Counted(lines, h.oldCount, h.newCount)
  {
    hide OldSide, NewSide, OldCount, NewCount;
    CountsAreSides(lines);
  }

  /** The hunk's header parses, and behind it an empty line that is not the last is reached. */
  ghost predicate HunkPanics(raw: seq<string>) {
    && raw != [] && HasPrefix(raw[0], "@@ ") && ParseHeader(raw[0]).Ok?
    && ReachesEmptyLine(raw[1..], ParseHeader(raw[0]).value.oldCount, ParseHeader(raw[0]).value.newCount)
  }

  lemma {:induction false} HeaderNeverPanics(header: string)
    requires HasPrefix(header, "@@ ")
    ensures ParseHeader(header) != Err(EmptyLinePanic)
  {
    hide FindAtAt, FieldsFrom, ParseRange;
  }

  lemma {:induction false} HunkPanicsIff(raw: seq<string>)
    requires raw != [] && HasPrefix(raw[0], "@@ ")
    ensures ParseHunk(raw) == Failed(EmptyLinePanic) <==> HunkPanics(raw)
  {
    hide ParseHeader, ParseBody, ReachesEmptyLine, HasPrefix;
    HeaderNeverPanics(raw[0]);
    if ParseHeader(raw[0]).Ok? {
      var h := ParseHeader(raw[0]).value;
      BodyPanicsIff(raw[1..], h.oldCount, h.newCount);
    }
  }

  ghost predicate AnyPanics(hunks: seq<seq<string>>) {
    exists i :: 0 <= i < |hunks| && HunkPanics(hunks[i])
  }

  lemma {:induction false} AnyConcat(a: seq<seq<string>>, b: seq<seq<string>>)
    ensures AnyPanics(a + b) <==> AnyPanics(a) || AnyPanics(b)
  {
    hide HunkPanics;
    if AnyPanics(a) {
      var i :| 0 <= i < |a| && HunkPanics(a[i]);
      assert (a + b)[i] == a[i];
    }
    if AnyPanics(b) {
      var i :| 0 <= i < |b| && HunkPanics(b[i]);
      assert (a + b)[|a| + i] == b[i];
    }
  }

  lemma {:induction false} AnyOne(raw: seq<string>)
    ensures AnyPanics([raw]) <==> HunkPanics(raw)
    ensures !AnyPanics([])
  {
    hide HunkPanics;
    assert [raw][0] == raw;
  }

  /** The hunks that are read panic exactly when the parser does; without a panic the file ends where the parser ends it. */
  ghost predicate ReadAlike(raw: seq<string>, file: (seq<seq<string>>, Option<seq<string>>), parsed: Parsed<seq<Hunk>>) {
    && (parsed == Failed(EmptyLinePanic) <==> AnyPanics(file.0))
    && (parsed.Parsed? <==> file.1.Some?)
    && (parsed.Parsed? ==> parsed.rest == file.1.value && (parsed.value == [] <==> file.0 == []))
  }

  lemma {:induction false} HunksPanicIff(raw: seq<string>)
    ensures ReadAlike(raw, HunksRead(raw), ParseHunks(raw))
    decreases |raw|
  {
    hide ParseHunk, HunkPanics, AnyPanics, HasPrefix, HunkEndsAt;
    AnyOne(raw);
    if raw != [] && !HasPrefix(raw[0], "--- ") && !(raw[0] == "" && |raw| == 1) {
      if !HasPrefix(raw[0], "@@ ") {
        HunksPanicIff(raw[1..]);
      } else {
        HunkPanicsIff(raw);
        HunkParsesIff(raw);
        if ParseHunk(raw).Parsed? {
          HunksPanicIff(ParseHunk(raw).rest);
          AnyConcat([raw], HunksRead(ParseHunk(raw).rest).0);
        }
      }
    }
  }

  lemma {:induction false} FilesPanicIff(raw: seq<string>, clean: string -> string)
    ensures ParseFiles(raw, clean) == Err(EmptyLinePanic) <==> AnyPanics(HunksReadIn(raw))
    decreases |raw|
  {
    hide ParseHunks, HunkPanics, AnyPanics, HasPrefix, HunksRead, ParsePath;
    AnyOne(raw);
    if raw != [] {
      if !HasPrefix(raw[0], "--- ") {
        FilesPanicIff(raw[1..], clean);
      } else if |raw| >= 2 && HasPrefix(raw[1], "+++ ") {
        HunksPanicIff(raw[2..]);
        var file := HunksRead(raw[2..]);
        if file.0 != [] && file.1.Some? {
          FilesPanicIff(file.1.value, clean);
          AnyConcat(file.0, HunksReadIn(file.1.value));
        } else {
          assert file.0 + [] == file.0;
        }
      }
    }
  }

  /** Parsing a diff panics exactly when one of the hunks it reads reaches an empty line that is not the last line. */
  lemma {:induction false} DiffPanicsIff(diff: string, clean: string -> string)
    ensures ParseDiff(diff, clean) == Err(EmptyLinePanic) <==> AnyPanics(HunksReadIn(Split(ReplaceCRLF(diff))))
  {
    hide Split, ReplaceCRLF, ParseFiles, HunksReadIn, AnyPanics;
    FilesPanicIff(Split(ReplaceCRLF(diff)), clean);
  }

  // ----- A diff that panics -----

  /** A hunk of two lines whose second line lost its leading blank. */
  function TrimmedHunk(header: string): seq<string> {
    ["--- a/x", "+++ b/x", header, " a", "", ""]
  }

  lemma {:induction false} TrimmedHunkPanics(header: string, h: Hunk, clean: string -> string)
    requires h == Hunk(1, 2, 1, 2, []) && header == PrintHeader(h.(lines := [Line(' ', "a"), Line(' ', "")]))
    ensures ParseDiff(Join(TrimmedHunk(header)), clean) == Err(EmptyLinePanic)
  {
    var lines := [Line(' ', "a"), Line(' ', "")];
    var full := h.(lines := lines);
    var raw := TrimmedHunk(header);
    assert PrintableHunk(full) by { CountsOfTwo(full); }
    HeaderReadsBack(full);
    HeaderPlain(full);
    RawPlain(header);
    hide PrintHeader, PrintableHunk, ParseHeader;
    JoinNoCRLF(raw);
    ReplaceCRLFIdentity(Join(raw));
    SplitOfJoin(raw);
    hide Join, Split, ReplaceCRLF;
    RawPanics(header, h, clean);
  }

  lemma {:induction false} CountsOfTwo(h: Hunk)
    requires h == Hunk(1, 2, 1, 2, [Line(' ', "a"), Line(' ', "")])
    ensures PrintableHunk(h)
  {
    var lines := h.lines;
    assert lines[..1] == [Line(' ', "a")] && lines[..1][..0] == [];
    assert OldSide(lines[..1]) == OldSide([]) + ["a"] && NewSide(lines[..1]) == NewSide([]) + ["a"];
    assert OldSide(lines) == ["a", ""] && NewSide(lines) == ["a", ""];
  }

  lemma {:induction false} RawPlain(header: string)
    requires PlainText(header)
    ensures NewlineFree(TrimmedHunk(header)) && NoTrailingCR(TrimmedHunk(header))
  {
  }

  lemma {:induction false} RawPanics(header: string, h: Hunk, clean: string -> string)
    requires HasPrefix(header, "@@ ") && ParseHeader(header) == Ok(h) && h.oldCount == 2 && h.newCount == 2
    ensures ParseFiles(TrimmedHunk(header), clean) == Err(EmptyLinePanic)
  {
    hide ParseHeader;
    var raw := TrimmedHunk(header);
    assert HasPrefix(raw[0], "--- ") && HasPrefix(raw[1], "+++ ");
    assert raw[2..] == [header, " a", "", ""] && raw[2..][1..] == [" a", "", ""];
    assert [" a", "", ""][1..] == ["", ""];
    BodyOfTwo();
    assert header[0] == header[..3][0] && !HasPrefix(header, "--- ");
    hide ParseBody, HasPrefix;
    assert ParseHunk(raw[2..]) == Failed(EmptyLinePanic);
    assert ParseHunks(raw[2..]) == Failed(EmptyLinePanic);
  }

  lemma {:induction false} BodyOfTwo()
    ensures ParseBody([" a", "", ""], 2, 2) == Failed(EmptyLinePanic)
  {
    assert [" a", "", ""][1..] == ["", ""];
    assert ParseBody(["", ""], 1, 1) == Failed(EmptyLinePanic);
  }
}
