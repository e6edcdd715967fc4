/**
  workspace/unified.go, the parser: from diff text to file patches.

  Path cleaning is a library matter, so every routine that needs it takes it as the parameter clean.
  Parsing a suffix of the raw lines stands for parsing from an index of the line slice.
 */
module UnifiedParse {
  import opened Wrappers
  import opened Text
  import opened UnifiedPatch

  datatype ParseError =
    | ExpectedNewHeader
    | NoHunks
    | BadHunkHeader
    | BadRange
    | TooManyLines
    | BadLine
    | BadCounts
    /** the source indexes byte 0 of an empty line and panics */
    | EmptyLinePanic

  const NO_NEWLINE_MARKER := "\\ No newline at end of file"

  // ----- Paths and ranges -----

  /** parseUnifiedPath */
  function ParsePath(value: string, clean: string -> string): string {
    var trimmed := TrimSpace(value);
    var cut := CutAtBlank(trimmed);
    if cut == DEV_NULL then cut
    else clean(TrimPrefix(TrimPrefix(cut, "a/"), "b/"))
  }

  /** value up to the first tab or space */
  function CutAtBlank(s: string): string {
    if s == "" || s[0] == '\t' || s[0] == ' ' then "" else [s[0]] + CutAtBlank(s[1..])
  }

  /** parseUnifiedRange: line and count */
  function ParseRange(value: string, prefix: char): Option<(int, int)> {
    if value == "" || value[0] != prefix then None
    else
      var body := value[1..];
      match IndexOf(body, ',')
      case None => (match Atoi(body) case None => None case Some(line) => Some((line, 1)))
      case Some(i) =>
        match (Atoi(body[i + 1..]), Atoi(body[..i]))
        case (Some(count), Some(line)) => Some((line, count))
        case _ => None
  }

  /** strings.Index(s, "@@") */
  function FindAtAt(s: string): (r: Option<nat>)
    ensures r.Some? ==> r.value + 2 <= |s|
  {
    if |s| < 2 then None
    else if s[0] == '@' && s[1] == '@' then Some(0)
    else match FindAtAt(s[1..])
      case None => None
      case Some(i) => Some(i + 1)
  }

  /** The header line of a hunk; the hunk's lines are still to be read. */
  function ParseHeader(header: string): Result<Hunk, ParseError>
    requires HasPrefix(header, "@@ ")
  {
    match FindAtAt(header[3..])
    case None => Err(BadHunkHeader)
    case Some(end) =>
      var fields := FieldsFrom(header[3..][..end], "");
      if |fields| < 2 then Err(BadHunkHeader)
      else
        match (ParseRange(fields[0], '-'), ParseRange(fields[1], '+'))
        case (Some(o), Some(n)) => Ok(Hunk(o.0, o.1, n.0, n.1, []))
        case _ => Err(BadRange)
  }

  // ----- Hunk bodies -----

  datatype Parsed<+T> = Failed(error: ParseError) | Parsed(value: T, rest: seq<string>)

  function SeenOld(kind: char): nat { if kind == ' ' || kind == '-' then 1 else 0 }
  function SeenNew(kind: char): nat { if kind == ' ' || kind == '+' then 1 else 0 }

  predicate IsKind(c: char) { c == ' ' || c == '-' || c == '+' }

  /** The lines of a hunk of which oldLeft old and newLeft new lines are still to come. */
  function ParseBody(raw: seq<string>, oldLeft: int, newLeft: int): (r: Parsed<seq<Line>>)
    ensures r.Parsed? ==> |r.rest| <= |raw|
    decreases |raw|
  {
    if raw == [] || (oldLeft == 0 && newLeft == 0) then Parsed([], raw)
    else
      var line := raw[0];
      if line == NO_NEWLINE_MARKER then ParseBody(raw[1..], oldLeft, newLeft)
      else if line == "" && |raw| == 1 then Parsed([], raw)
      else if line == "" then Failed(EmptyLinePanic)
      else if !IsKind(line[0]) then Failed(BadLine)
      else
        var oldLeft', newLeft' := oldLeft - SeenOld(line[0]), newLeft - SeenNew(line[0]);
        if oldLeft' < 0 || newLeft' < 0 then Failed(TooManyLines)
        else PrependLine(Line(line[0], line[1..]), ParseBody(raw[1..], oldLeft', newLeft'))
  }

  function PrependLine(l: Line, r: Parsed<seq<Line>>): Parsed<seq<Line>> {
    if r.Failed? then r else Parsed([l] + r.value, r.rest)
  }

  /** parseUnifiedHunk on the lines from the header on */
  function ParseHunk(raw: seq<string>): (r: Parsed<Hunk>)
    requires raw != [] && HasPrefix(raw[0], "@@ ")
    ensures r.Parsed? ==> |r.rest| < |raw|
  {
    match ParseHeader(raw[0])
    case Err(e) => Failed(e)
    case Ok(h) =>
      match ParseBody(raw[1..], h.oldCount, h.newCount)
      case Failed(e) => Failed(e)
      case Parsed(lines, rest) =>
        var hunk := h.(lines := lines);
        if CountsAgree(hunk) then Parsed(hunk, rest) else Failed(BadCounts)
  }

  /** The hunks of one file, up to the next file header. */
  function ParseHunks(raw: seq<string>): (r: Parsed<seq<Hunk>>)
    ensures r.Parsed? ==> |r.rest| <= |raw|
    decreases |raw|
  {
    if raw == [] || HasPrefix(raw[0], "--- ") then Parsed([], raw)
    else if raw[0] == "" && |raw| == 1 then Parsed([], [])
    else if !HasPrefix(raw[0], "@@ ") then ParseHunks(raw[1..])
    else
      match ParseHunk(raw)
      case Failed(e) => Failed(e)
      case Parsed(hunk, rest) => PrependHunk(hunk, ParseHunks(rest))
  }

  function PrependHunk(h: Hunk, r: Parsed<seq<Hunk>>): Parsed<seq<Hunk>> {
    if r.Failed? then r else Parsed([h] + r.value, r.rest)
  }

  /** The two header lines and the hunks of one file. */
  function ParseFile(raw: seq<string>, clean: string -> string): (r: Parsed<FilePatch>)
    requires raw != [] && HasPrefix(raw[0], "--- ")
    ensures r.Parsed? ==> |r.rest| < |raw|
  {
    if |raw| < 2 || !HasPrefix(raw[1], "+++ ") then Failed(ExpectedNewHeader)
    else
      match ParseHunks(raw[2..])
      case Failed(e) => Failed(e)
      case Parsed(hunks, rest) =>
        if hunks == [] then Failed(NoHunks)
        else Parsed(FilePatch(ParsePath(raw[0][4..], clean), ParsePath(raw[1][4..], clean), hunks), rest)
  }

  function ParseFiles(raw: seq<string>, clean: string -> string): Result<seq<FilePatch>, ParseError>
    decreases |raw|
  {
    if raw == [] then Ok([])
    else if !HasPrefix(raw[0], "--- ") then ParseFiles(raw[1..], clean)
    else
      match ParseFile(raw, clean)
      case Failed(e) => Err(e)
      case Parsed(patch, rest) => PrependPatch(patch, ParseFiles(rest, clean))
  }

  function PrependPatch(p: FilePatch, r: Result<seq<FilePatch>, ParseError>): Result<seq<FilePatch>, ParseError> {
    if r.Err? then r else Ok([p] + r.value)
  }

  /** parseUnifiedDiff */
  function ParseDiff(diff: string, clean: string -> string): Result<seq<FilePatch>, ParseError> {
    ParseFiles(Split(ReplaceCRLF(diff)), clean)
  }

  // ----- The canonical printing -----

  function PrintPath(path: string, prefix: string): string {
    if path == DEV_NULL then path else prefix + path
  }

  function PrintRange(prefix: char, start: int, count: int): string {
    [prefix] + PrintInt(start) + "," + PrintInt(count)
  }

  function PrintHeader(h: Hunk): string {
    "@@ " + PrintRange('-', h.oldStart, h.oldCount) + " " + PrintRange('+', h.newStart, h.newCount) + " @@"
  }

  function PrintBody(lines: seq<Line>): seq<string> {
    if lines == [] then [] else [[lines[0].kind] + lines[0].text] + PrintBody(lines[1..])
  }

  function PrintHunks(hunks: seq<Hunk>): seq<string> {
    if hunks == [] then [] else [PrintHeader(hunks[0])] + PrintBody(hunks[0].lines) + PrintHunks(hunks[1..])
  }

  function PrintFile(p: FilePatch): seq<string> {
    ["--- " + PrintPath(p.oldPath, "a/"), "+++ " + PrintPath(p.newPath, "b/")] + PrintHunks(p.hunks)
  }

  function PrintFiles(patches: seq<FilePatch>): seq<string> {
    if patches == [] then [] else PrintFile(patches[0]) + PrintFiles(patches[1..])
  }

  /** Every line is ended by a newline. */
  function PrintDiff(patches: seq<FilePatch>): string {
    Join(PrintFiles(patches) + [""])
  }

  // ----- Which patches can be printed -----

  predicate PlainText(s: string) {
    '\n' !in s && (s != "" ==> s[|s| - 1] != '\r')
  }

  predicate InRange(n: int) { MIN_INT <= n <= MAX_INT }

  predicate PrintableHunk(h: Hunk) {
    && CountsAgree(h)
    && InRange(h.oldStart) && InRange(h.oldCount) && InRange(h.newStart) && InRange(h.newCount)
    && forall l :: l in h.lines ==> IsKind(l.kind) && PlainText(l.text)
  }

  predicate PrintablePath(path: string, clean: string -> string) {
    path == DEV_NULL || (NoSpace(path) && clean(path) == path)
  }

  predicate PrintablePatch(p: FilePatch, clean: string -> string) {
    && PrintablePath(p.oldPath, clean) && PrintablePath(p.newPath, clean)
    && !HasPrefix(p.oldPath, "b/")
    && p.hunks != []
    && forall h :: h in p.hunks ==> PrintableHunk(h)
  }

  predicate Printable(patches: seq<FilePatch>, clean: string -> string) {
    forall p :: p in patches ==> PrintablePatch(p, clean)
  }

  // ----- What is read over -----

  predicate Starts(lines: seq<string>, prefix: string) {
    exists i :: 0 <= i < |lines| && HasPrefix(lines[i], prefix)
  }

  /** Lines in front of a file header, such as those that git adds, are read over. */
  lemma {:induction false} NoiseBeforeFile(noise: seq<string>, raw: seq<string>, clean: string -> string)
    requires !Starts(noise, "--- ")
    ensures ParseFiles(noise + raw, clean) == ParseFiles(raw, clean)
    decreases |noise|
  {
    hide ParseFile;
    if noise == [] {
      assert noise + raw == raw;
    } else {
      assert !HasPrefix(noise[0], "--- ") && forall i :: 0 <= i < |noise| - 1 ==> noise[1..][i] == noise[i + 1];
      assert (noise + raw)[1..] == noise[1..] + raw;
      NoiseBeforeFile(noise[1..], raw, clean);
    }
  }

  /** So are lines between the hunks of a file. */
  lemma {:induction false} NoiseBeforeHunk(noise: seq<string>, raw: seq<string>)
    requires !Starts(noise, "--- ") && !Starts(noise, "@@ ") && raw != []
    ensures ParseHunks(noise + raw) == ParseHunks(raw)
    decreases |noise|
  {
    hide ParseHunk;
    if noise == [] {
      assert noise + raw == raw;
    } else {
      assert !HasPrefix(noise[0], "--- ") && !HasPrefix(noise[0], "@@ ");
      assert forall i :: 0 <= i < |noise| - 1 ==> noise[1..][i] == noise[i + 1];
      assert (noise + raw)[1..] == noise[1..] + raw;
      NoiseBeforeHunk(noise[1..], raw);
    }
  }

  lemma {:induction false} CutBefore(path: string, rest: string)
    requires NoSpace(path) && rest != "" && (rest[0] == '\t' || rest[0] == ' ')
    ensures CutAtBlank(path + rest) == path
    decreases |path|
  {
    if path == "" {
      assert path + rest == rest;
    } else {
      assert path[0] in path && forall c :: c in path[1..] ==> c in path;
      assert (path + rest)[1..] == path[1..] + rest;
      CutBefore(path[1..], rest);
    }
  }

  /** What follows a path behind a blank or tab, such as a time stamp, is not part of it. */
  lemma {:induction false} StampIgnored(path: string, rest: string, clean: string -> string)
    requires path != "" && NoSpace(path) && NoSpace(rest) && rest != ""
    ensures ParsePath(path + "\t" + rest, clean) == ParsePath(path, clean)
  {
    hide TrimSpace, CutAtBlank, IsSpace, TrimPrefix, DEV_NULL;
    TrimNoSpace(path);
    CutNoBlank(path);
    TrimInner(path, "\t", rest);
    assert path + "\t" + rest == path + ("\t" + rest);
    CutBefore(path, "\t" + rest);
  }

  lemma {:induction false} TrimInner(a: string, gap: string, b: string)
    requires a != "" && b != "" && NoSpace(a) && NoSpace(b)
    ensures TrimSpace(a + gap + b) == a + gap + b
  {
    hide IsSpace;
    var s := a + gap + b;
    assert s[0] == a[0] && a[0] in a && s[|s| - 1] == b[|b| - 1] && b[|b| - 1] in b;
    assert TrimLeft(s) == s;
  }

  // ----- Reading back: headers -----

  lemma {:induction false} FindAtAtAfter(s: string)
    requires '@' !in s
    ensures FindAtAt(s + "@@") == Some(|s|)
  {
    if s != "" {
      FindAtAtAfter(s[1..]);
      assert (s + "@@")[1..] == s[1..] + "@@";
    }
  }

  lemma {:induction false} CommaAfter(a: string, b: string)
    requires ',' !in a
    ensures IndexOf(a + "," + b, ',') == Some(|a|)
  {
    var s := a + "," + b;
    if a != "" {
      assert s[0] == a[0] && a[0] in a;
      assert s[1..] == a[1..] + "," + b;
      CommaAfter(a[1..], b);
    }
  }

  lemma {:induction false} RangeReadsBack(prefix: char, start: int, count: int)
    requires InRange(start) && InRange(count)
    ensures ParseRange(PrintRange(prefix, start, count), prefix) == Some((start, count))
  {
    AtoiOfPrintInt(start);
    AtoiOfPrintInt(count);
    hide PrintInt, Atoi, IndexOf;
    var a, b := PrintInt(start), PrintInt(count);
    var body := PrintRange(prefix, start, count)[1..];
    assert body == a + "," + b;
    CommaAfter(a, b);
    assert body[..|a|] == a && body[|a| + 1..] == b;
  }

  predicate Token(s: string) {
    s != "" && NoSpace(s) && '@' !in s
  }

  lemma {:induction false} RangeToken(prefix: char, start: int, count: int)
    requires InRange(start) && InRange(count) && prefix in "+-"
    ensures Token(PrintRange(prefix, start, count))
  {
    AtoiOfPrintInt(start);
    AtoiOfPrintInt(count);
    var s := PrintRange(prefix, start, count);
    forall c | c in s
      ensures !IsSpace(c) && c != '@'
    {
      assert c == prefix || c in PrintInt(start) || c == ',' || c in PrintInt(count);
    }
  }

  /** Splitting a header of two tokens. */
  lemma {:induction false} HeaderFields(o: string, n: string, header: string)
    requires Token(o) && Token(n) && header == "@@ " + o + " " + n + " @@"
    ensures HasPrefix(header, "@@ ")
    ensures var end := FindAtAt(header[3..]);
            end.Some? && FieldsFrom(header[3..][..end.value], "") == [o, n]
  {
    var inner := o + " " + (n + " " + "");
    assert header[3..] == inner + "@@";
    assert '@' !in inner;
    FindAtAtAfter(inner);
    assert (inner + "@@")[..|inner|] == inner;
    assert "" + o == o && "" + n == n;
    FieldsToken(o, n + " " + "", "");
    FieldsToken(n, "", "");
    assert [n] + FieldsFrom("", "") == [n] && [o] + [n] == [o, n];
  }

  lemma {:induction false} HeaderReadsBack(h: Hunk)
    requires PrintableHunk(h)
    ensures HasPrefix(PrintHeader(h), "@@ ")
    ensures ParseHeader(PrintHeader(h)) == Ok(h.(lines := []))
  {
    RangeToken('-', h.oldStart, h.oldCount);
    RangeToken('+', h.newStart, h.newCount);
    HeaderFields(PrintRange('-', h.oldStart, h.oldCount), PrintRange('+', h.newStart, h.newCount), PrintHeader(h));
    RangeReadsBack('-', h.oldStart, h.oldCount);
    RangeReadsBack('+', h.newStart, h.newCount);
  }

  /** A range as git prints it: a count of one may be left out. */
  function BriefRange(prefix: char, start: int, count: int, brief: bool): string {
    if brief && count == 1 then [prefix] + PrintInt(start) else PrintRange(prefix, start, count)
  }

  lemma {:induction false} NoComma(s: string)
    requires ',' !in s
    ensures IndexOf(s, ',').None?
  {
  }

  lemma {:induction false} BriefRangeReadsBack(prefix: char, start: int, count: int, brief: bool)
    requires InRange(start) && InRange(count)
    ensures ParseRange(BriefRange(prefix, start, count, brief), prefix) == Some((start, count))
  {
    RangeReadsBack(prefix, start, count);
    if brief && count == 1 {
      AtoiOfPrintInt(start);
      hide PrintInt, Atoi, IndexOf;
      var s := [prefix] + PrintInt(start);
      assert s[1..] == PrintInt(start);
      NoComma(PrintInt(start));
    }
  }

  lemma {:induction false} BriefRangeToken(prefix: char, start: int, count: int, brief: bool)
    requires InRange(start) && InRange(count) && prefix in "+-"
    ensures Token(BriefRange(prefix, start, count, brief))
  {
    RangeToken(prefix, start, count);
    if brief && count == 1 {
      AtoiOfPrintInt(start);
      var s := [prefix] + PrintInt(start);
      forall c | c in s
        ensures !IsSpace(c) && c != '@'
      {
        assert c == prefix || c in PrintInt(start);
      }
    }
  }

  /** A header reads back with or without counts of one: "@@ -1 +1 @@" is one old and one new line. */
  lemma {:induction false} BriefHeaderReadsBack(h: Hunk, briefOld: bool, briefNew: bool, header: string)
    requires PrintableHunk(h)
    requires header == "@@ " + BriefRange('-', h.oldStart, h.oldCount, briefOld) + " " +
                       BriefRange('+', h.newStart, h.newCount, briefNew) + " @@"
    ensures HasPrefix(header, "@@ ") && ParseHeader(header) == Ok(h.(lines := []))
  {
    BriefRangeToken('-', h.oldStart, h.oldCount, briefOld);
    BriefRangeToken('+', h.newStart, h.newCount, briefNew);
    HeaderFields(BriefRange('-', h.oldStart, h.oldCount, briefOld), BriefRange('+', h.newStart, h.newCount, briefNew), header);
    BriefRangeReadsBack('-', h.oldStart, h.oldCount, briefOld);
    BriefRangeReadsBack('+', h.newStart, h.newCount, briefNew);
  }

  lemma {:induction false} CutNoBlank(s: string)
    requires NoSpace(s)
    ensures CutAtBlank(s) == s
  {
    if s != "" {
      assert s[0] in s && forall c :: c in s[1..] ==> c in s;
      CutNoBlank(s[1..]);
    }
  }

  lemma {:induction false} TrimNoSpace(s: string)
    requires NoSpace(s)
    ensures TrimSpace(s) == s
  {
    hide IsSpace;
    if s != "" {
      assert s[0] in s && s[|s| - 1] in s;
      assert TrimLeft(s) == s;
      hide TrimLeft, NoSpace;
      assert TrimRight(s) == s;
    }
  }

  lemma {:induction false} PathReadsBack(path: string, prefix: string, clean: string -> string)
    requires PrintablePath(path, clean)
    requires prefix == "b/" || (prefix == "a/" && !HasPrefix(path, "b/"))
    ensures ParsePath(PrintPath(path, prefix), clean) == path
  {
    hide TrimSpace, CutAtBlank;
    var printed := PrintPath(path, prefix);
    assert NoSpace(printed) by {
      assert path != DEV_NULL ==> printed == [prefix[0], prefix[1]] + path;
    }
    TrimNoSpace(printed);
    CutNoBlank(printed);
    if path != DEV_NULL {
      assert printed[2..] == path;
      assert printed[0] == prefix[0] && DEV_NULL[0] == '/';
      if prefix == "a/" {
        assert TrimPrefix(printed, "a/") == path;
      } else {
        assert "a/"[0] == 'a' && TrimPrefix(printed, "a/") == printed;
        assert TrimPrefix(printed, "b/") == path;
      }
    }
  }

  // ----- Reading back: bodies -----

  lemma {:induction false} FrontSides(lines: seq<Line>)
    requires lines != [] && IsKind(lines[0].kind)
    ensures |OldSide(lines)| == SeenOld(lines[0].kind) + |OldSide(lines[1..])|
    ensures |NewSide(lines)| == SeenNew(lines[0].kind) + |NewSide(lines[1..])|
  {
    var n := |lines|;
    if n == 1 {
      assert lines[..0] == [] && lines[1..] == [];
      assert |OldSide(lines)| == |OldSide(lines[..0])| + SeenOld(lines[0].kind);
      assert |NewSide(lines)| == |NewSide(lines[..0])| + SeenNew(lines[0].kind);
    } else {
      FrontSides(lines[..n - 1]);
      assert lines[1..][..n - 2] == lines[..n - 1][1..];
      assert lines[1..][n - 2] == lines[n - 1];
    }
  }

  lemma {:induction false} LineReadsBack(l: Line, rest: seq<string>, oldLeft: nat, newLeft: nat)
    requires IsKind(l.kind) && SeenOld(l.kind) <= oldLeft && SeenNew(l.kind) <= newLeft
    ensures ParseBody([[l.kind] + l.text] + rest, oldLeft, newLeft) ==
            PrependLine(l, ParseBody(rest, oldLeft - SeenOld(l.kind), newLeft - SeenNew(l.kind)))
  {
    var raw := [[l.kind] + l.text] + rest;
    assert raw[1..] == rest && raw[0][0] == l.kind && raw[0][1..] == l.text;
    assert NO_NEWLINE_MARKER[0] == '\\';
  }

  lemma {:induction false} EmptyBody(rest: seq<string>)
    ensures OldSide([]) == [] && NewSide([]) == []
    ensures ParseBody(rest, 0, 0) == Parsed([], rest)
  {
  }

  lemma {:induction false} BodyReadsBack(lines: seq<Line>, rest: seq<string>, oldLeft: nat, newLeft: nat)
    requires forall l :: l in lines ==> IsKind(l.kind)
    requires oldLeft == |OldSide(lines)| && newLeft == |NewSide(lines)|
    ensures ParseBody(PrintBody(lines) + rest, oldLeft, newLeft) == Parsed(lines, rest)
    decreases |lines|
  {
    hide IsKind, SeenOld, SeenNew, ParseBody, OldSide, NewSide;
    if lines == [] {
      EmptyBody(rest);
      assert PrintBody(lines) + rest == rest;
    } else {
      var l := lines[0];
      assert l in lines && forall x :: x in lines[1..] ==> x in lines;
      FrontSides(lines);
      BodyReadsBack(lines[1..], rest, oldLeft - SeenOld(l.kind), newLeft - SeenNew(l.kind));
      LineReadsBack(l, PrintBody(lines[1..]) + rest, oldLeft, newLeft);
      assert PrintBody(lines) + rest == [[l.kind] + l.text] + (PrintBody(lines[1..]) + rest);
      assert [l] + lines[1..] == lines;
    }
  }

  lemma {:induction false} HunkReadsBack(h: Hunk, rest: seq<string>, raw: seq<string>)
    requires PrintableHunk(h) && raw == [PrintHeader(h)] + PrintBody(h.lines) + rest
    ensures HasPrefix(raw[0], "@@ ") && ParseHunk(raw) == Parsed(h, rest)
  {
    hide ParseHeader, PrintHeader, ParseBody, PrintBody, OldSide, NewSide;
    HeaderReadsBack(h);
    assert raw[1..] == PrintBody(h.lines) + rest;
    BodyReadsBack(h.lines, rest, h.oldCount, h.newCount);
  }

  lemma {:induction false} HunksReadBack(hunks: seq<Hunk>, rest: seq<string>)
    requires forall h :: h in hunks ==> PrintableHunk(h)
    requires rest == [""] || (rest != [] && HasPrefix(rest[0], "--- "))
    ensures ParseHunks(PrintHunks(hunks) + rest) == Parsed(hunks, if rest == [""] then [] else rest)
    decreases |hunks|
  {
    hide ParseHunk, PrintHeader, PrintBody, PrintableHunk;
    var raw := PrintHunks(hunks) + rest;
    if hunks == [] {
      assert raw == rest;
    } else {
      var h := hunks[0];
      var after := PrintHunks(hunks[1..]) + rest;
      assert h in hunks && forall x :: x in hunks[1..] ==> x in hunks;
      assert raw == [PrintHeader(h)] + PrintBody(h.lines) + after;
      HunkReadsBack(h, after, raw);
      assert raw[0][0] == '@';
      HunksReadBack(hunks[1..], rest);
      assert [h] + hunks[1..] == hunks;
    }
  }

  lemma {:induction false} FileReadsBack(p: FilePatch, rest: seq<string>, raw: seq<string>, clean: string -> string)
    requires PrintablePatch(p, clean) && raw == PrintFile(p) + rest
    requires rest == [""] || (rest != [] && HasPrefix(rest[0], "--- "))
    ensures HasPrefix(raw[0], "--- ")
    ensures ParseFile(raw, clean) == Parsed(p, if rest == [""] then [] else rest)
  {
    hide ParsePath, ParseHunks, PrintHunks, PrintPath, PrintableHunk, PrintablePath;
    var a, b := PrintPath(p.oldPath, "a/"), PrintPath(p.newPath, "b/");
    assert raw[0] == "--- " + a && raw[1] == "+++ " + b;
    assert raw[0][4..] == a && raw[1][4..] == b;
    assert raw[2..] == PrintHunks(p.hunks) + rest;
    PathReadsBack(p.oldPath, "a/", clean);
    PathReadsBack(p.newPath, "b/", clean);
    HunksReadBack(p.hunks, rest);
  }

  lemma {:induction false} FileStarts(p: FilePatch)
    ensures PrintFile(p) != [] && HasPrefix(PrintFile(p)[0], "--- ")
  {
  }

  lemma {:induction false} NoFilesReadBack(clean: string -> string)
    ensures ParseFiles(PrintFiles([]) + [""], clean) == Ok([]) && PrintFiles([]) + [""] == [""] && ParseFiles([], clean) == Ok([])
  {
    assert [""][1..] == [] && !HasPrefix("", "--- ");
    hide HasPrefix;
  }

  lemma {:induction false} PrintCons(p: FilePatch, rest: seq<FilePatch>)
    ensures PrintFiles([p] + rest) + [""] == PrintFile(p) + (PrintFiles(rest) + [""])
  {
    hide PrintFile;
    assert ([p] + rest)[1..] == rest;
  }

  lemma {:induction false} ParseCons(raw: seq<string>, p: FilePatch, rest: seq<string>, patches: seq<FilePatch>, clean: string -> string)
    requires raw != [] && HasPrefix(raw[0], "--- ") && ParseFile(raw, clean) == Parsed(p, rest)
    requires ParseFiles(rest, clean) == Ok(patches)
    ensures ParseFiles(raw, clean) == Ok([p] + patches)
  {
    hide ParseFile, HasPrefix;
  }

  /** What follows a printed file: the end of the text, or the next file. */
  lemma {:induction false} AfterFile(patches: seq<FilePatch>)
    ensures var after := PrintFiles(patches) + [""];
            if patches == [] then after == [""] else |after| > 1 && HasPrefix(after[0], "--- ")
  {
    hide HasPrefix, PrintFile;
    if patches != [] {
      FileStarts(patches[0]);
      assert (PrintFiles(patches) + [""])[0] == PrintFile(patches[0])[0];
    }
  }

  lemma {:induction false} FilesReadBack(patches: seq<FilePatch>, clean: string -> string)
    requires Printable(patches, clean)
    ensures ParseFiles(PrintFiles(patches) + [""], clean) == Ok(patches)
    decreases |patches|
  {
    hide ParseFile, PrintablePatch, ParseFiles, PrintFiles, HasPrefix, PrintFile;
    if patches == [] {
      NoFilesReadBack(clean);
    } else {
      var p, rest := patches[0], patches[1..];
      var raw, after := PrintFiles(patches) + [""], PrintFiles(rest) + [""];
      assert p in patches && forall x :: x in rest ==> x in patches;
      assert patches == [p] + rest;
      FilesReadBack(rest, clean);
      AfterFile(rest);
      PrintCons(p, rest);
      FileReadsBack(p, after, raw, clean);
      FileStarts(p);
      assert raw[0] == PrintFile(p)[0];
      NoFilesReadBack(clean);
      ParseCons(raw, p, if rest == [] then [] else after, rest, clean);
    }
  }

  // ----- The printed text splits into the printed lines -----

  predicate PlainLines(lines: seq<string>) {
    forall i :: 0 <= i < |lines| ==> PlainText(lines[i])
  }

  lemma {:induction false} ConcatPlain(a: seq<string>, b: seq<string>)
    requires PlainLines(a) && PlainLines(b)
    ensures PlainLines(a + b)
  {
  }

  lemma {:induction false} BodyPlain(lines: seq<Line>)
    requires forall l :: l in lines ==> IsKind(l.kind) && PlainText(l.text)
    ensures PlainLines(PrintBody(lines))
  {
    if lines != [] {
      assert lines[0] in lines && forall l :: l in lines[1..] ==> l in lines;
      BodyPlain(lines[1..]);
      ConcatPlain([[lines[0].kind] + lines[0].text], PrintBody(lines[1..]));
    }
  }

  lemma {:induction false} HeaderPlain(h: Hunk)
    requires PrintableHunk(h)
    ensures PlainText(PrintHeader(h))
  {
    RangeToken('-', h.oldStart, h.oldCount);
    RangeToken('+', h.newStart, h.newCount);
    TokensPlain(PrintRange('-', h.oldStart, h.oldCount), PrintRange('+', h.newStart, h.newCount));
  }

  lemma {:induction false} TokensPlain(o: string, n: string)
    requires Token(o) && Token(n)
    ensures PlainText("@@ " + o + " " + n + " @@")
  {
    var s := "@@ " + o + " " + n + " @@";
    assert s[|s| - 1] == '@';
    forall c | c in s
      ensures c != '\n'
    {
      assert c in "@@ " || c in o || c == ' ' || c in n || c in " @@";
    }
  }

  lemma {:induction false} HunksPlain(hunks: seq<Hunk>)
    requires forall h :: h in hunks ==> PrintableHunk(h)
    ensures PlainLines(PrintHunks(hunks))
  {
    if hunks != [] {
      assert hunks[0] in hunks && forall h :: h in hunks[1..] ==> h in hunks;
      HeaderPlain(hunks[0]);
      BodyPlain(hunks[0].lines);
      HunksPlain(hunks[1..]);
      ConcatPlain([PrintHeader(hunks[0])], PrintBody(hunks[0].lines));
      ConcatPlain([PrintHeader(hunks[0])] + PrintBody(hunks[0].lines), PrintHunks(hunks[1..]));
    }
  }

  lemma {:induction false} PathPlain(path: string, prefix: string, mark: string, clean: string -> string)
    requires PrintablePath(path, clean)
    requires prefix in ["a/", "b/"] && mark in ["--- ", "+++ "]
    ensures PlainText(mark + PrintPath(path, prefix))
  {
    var s := mark + PrintPath(path, prefix);
    assert s[|s| - 1] == PrintPath(path, prefix)[|PrintPath(path, prefix)| - 1];
    if path != DEV_NULL && path != "" {
      assert path[|path| - 1] in path;
    }
  }

  lemma {:induction false} FilesPlain(patches: seq<FilePatch>, clean: string -> string)
    requires Printable(patches, clean)
    ensures PlainLines(PrintFiles(patches))
  {
    if patches != [] {
      var p := patches[0];
      assert p in patches && forall x :: x in patches[1..] ==> x in patches;
      PathPlain(p.oldPath, "a/", "--- ", clean);
      PathPlain(p.newPath, "b/", "+++ ", clean);
      HunksPlain(p.hunks);
      FilesPlain(patches[1..], clean);
      ConcatPlain(["--- " + PrintPath(p.oldPath, "a/"), "+++ " + PrintPath(p.newPath, "b/")], PrintHunks(p.hunks));
      ConcatPlain(PrintFile(p), PrintFiles(patches[1..]));
    }
  }

  /** Parsing the canonical printing of any printable list of file patches gives the list back. */
  lemma {:induction false} ParseOfPrint(patches: seq<FilePatch>, clean: string -> string)
    requires Printable(patches, clean)
    ensures ParseDiff(PrintDiff(patches), clean) == Ok(patches)
  {
    var lines := PrintFiles(patches) + [""];
    FilesPlain(patches, clean);
    ConcatPlain(PrintFiles(patches), [""]);
    assert NewlineFree(lines) && NoTrailingCR(lines);
    JoinNoCRLF(lines);
    ReplaceCRLFIdentity(Join(lines));
    SplitOfJoin(lines);
    FilesReadBack(patches, clean);
  }

  // ----- What the parser accepts -----

  lemma {:induction false} BodySound(raw: seq<string>, oldLeft: int, newLeft: int)
    requires NewlineFree(raw) && ParseBody(raw, oldLeft, newLeft).Parsed?
    ensures var r := ParseBody(raw, oldLeft, newLeft);
            && NewlineFree(r.rest)
            && forall l :: l in r.value ==> IsKind(l.kind) && '\n' !in l.text
    decreases |raw|
  {
    if raw != [] && !(oldLeft == 0 && newLeft == 0) {
      var line := raw[0];
      if line == NO_NEWLINE_MARKER {
        BodySound(raw[1..], oldLeft, newLeft);
      } else if line != "" {
        BodySound(raw[1..], oldLeft - SeenOld(line[0]), newLeft - SeenNew(line[0]));
        assert forall c :: c in line[1..] ==> c in line;
      }
    }
  }

  lemma {:induction false} HunksSound(raw: seq<string>)
    requires NewlineFree(raw) && ParseHunks(raw).Parsed?
    ensures var r := ParseHunks(raw);
            && NewlineFree(r.rest) && HunksNewlineFree(r.value)
            && forall h :: h in r.value ==> CountsAgree(h) && forall l :: l in h.lines ==> IsKind(l.kind)
    decreases |raw|
  {
    if raw == [] || HasPrefix(raw[0], "--- ") || (raw[0] == "" && |raw| == 1) {
    } else if !HasPrefix(raw[0], "@@ ") {
      HunksSound(raw[1..]);
    } else {
      var h := ParseHeader(raw[0]).value;
      BodySound(raw[1..], h.oldCount, h.newCount);
      HunksSound(ParseHunk(raw).rest);
    }
  }

  /** At least one hunk, headers that count their lines, and lines without newlines. */
  ghost predicate SoundFile(p: FilePatch) {
    p.hunks != [] && HunksNewlineFree(p.hunks) && forall h :: h in p.hunks ==> CountsAgree(h)
  }

  lemma {:induction false} FileSound(raw: seq<string>, clean: string -> string)
    requires NewlineFree(raw) && raw != [] && HasPrefix(raw[0], "--- ") && ParseFile(raw, clean).Parsed?
    ensures SoundFile(ParseFile(raw, clean).value) && NewlineFree(ParseFile(raw, clean).rest)
  {
    hide ParseHunks, HasPrefix, ParsePath, CountsAgree, HunksNewlineFree;
    assert NewlineFree(raw[2..]);
    HunksSound(raw[2..]);
  }

  lemma {:induction false} TailNewlineFree(raw: seq<string>)
    requires NewlineFree(raw) && raw != []
    ensures NewlineFree(raw[1..])
  {
  }

  /** Whatever text it is given, the parser only returns sound files. */
  lemma {:induction false} FilesSound(raw: seq<string>, clean: string -> string)
    requires NewlineFree(raw) && ParseFiles(raw, clean).Ok?
    ensures forall p :: p in ParseFiles(raw, clean).value ==> SoundFile(p)
    decreases |raw|
  {
    hide ParseFile, HasPrefix, SoundFile, NewlineFree;
    if raw != [] {
      if !HasPrefix(raw[0], "--- ") {
        TailNewlineFree(raw);
        FilesSound(raw[1..], clean);
      } else {
        FileSound(raw, clean);
        FilesSound(ParseFile(raw, clean).rest, clean);
      }
    }
  }

  // ----- The loops of the parser -----

  /** validateUnifiedHunkCounts */
  method ValidateHunkCounts(h: Hunk) returns (ok: bool)
    ensures ok <==> CountsAgree(h)
  {
    var oldCount, newCount := 0, 0;
    for k := 0 to |h.lines|
      invariant oldCount == |OldSide(h.lines[..k])| && newCount == |NewSide(h.lines[..k])|
    {
      SideStep(h.lines, k);
      match h.lines[k].kind {
        case ' ' => oldCount, newCount := oldCount + 1, newCount + 1;
        case '-' => oldCount := oldCount + 1;
        case '+' => newCount := newCount + 1;
        case _ =>
      }
    }
    assert h.lines[..|h.lines|] == h.lines;
    ok := oldCount == h.oldCount && newCount == h.newCount;
  }

  function PrependLines(lines: seq<Line>, r: Parsed<seq<Line>>): Parsed<seq<Line>> {
    if r.Failed? then r else Parsed(lines + r.value, r.rest)
  }

  lemma {:induction false} PrependOneMore(lines: seq<Line>, l: Line, r: Parsed<seq<Line>>)
    ensures PrependLines(lines, PrependLine(l, r)) == PrependLines(lines + [l], r)
  {
    if r.Parsed? {
      assert lines + ([l] + r.value) == (lines + [l]) + r.value;
    }
  }

  lemma {:induction false} Suffix(raw: seq<string>, i: nat)
    requires i < |raw|
    ensures raw[i..] != [] && raw[i..][0] == raw[i] && raw[i..][1..] == raw[i + 1..] && |raw[i..]| == |raw| - i
  {
  }

  lemma {:induction false} BodyEnds(raw: seq<string>)
    ensures forall i :: 0 <= i <= |raw| ==> ParseBody(raw[i..], 0, 0) == Parsed([], raw[i..])
    ensures forall o, n :: ParseBody([], o, n) == Parsed([], [])
  {
  }

  lemma {:induction false} BodyStep(raw: seq<string>, i: nat, oldLeft: int, newLeft: int)
    requires i < |raw| && !(oldLeft == 0 && newLeft == 0)
    ensures var here, line := ParseBody(raw[i..], oldLeft, newLeft), raw[i];
            if line == NO_NEWLINE_MARKER then here == ParseBody(raw[i + 1..], oldLeft, newLeft)
            else if line == "" then here == if i == |raw| - 1 then Parsed([], raw[i..]) else Failed(EmptyLinePanic)
            else if !IsKind(line[0]) then here == Failed(BadLine)
            else if oldLeft < SeenOld(line[0]) || newLeft < SeenNew(line[0]) then here == Failed(TooManyLines)
            else here == PrependLine(Line(line[0], line[1..]),
                                     ParseBody(raw[i + 1..], oldLeft - SeenOld(line[0]), newLeft - SeenNew(line[0])))
  {
    Suffix(raw, i);
  }

  /** The line loop of parseUnifiedHunk, from raw line first on. */
  method ParseHunkLines(raw: seq<string>, first: nat, oldCount: int, newCount: int)
      returns (r: Result<seq<Line>, ParseError>, next: nat)
    requires first <= |raw|
    ensures match ParseBody(raw[first..], oldCount, newCount)
            case Failed(e) => r == Err(e)
            case Parsed(lines, rest) => r == Ok(lines) && next <= |raw| && rest == raw[next..]
  {
    BodyEnds(raw);
    hide ParseBody, SeenOld, SeenNew, IsKind;
    ghost var whole := ParseBody(raw[first..], oldCount, newCount);
    var lines, oldSeen, newSeen, i := [], 0, 0, first;
    assert whole.Parsed? ==> [] + whole.value == whole.value;
    while i < |raw|
      invariant first <= i <= |raw|
      invariant whole == PrependLines(lines, ParseBody(raw[i..], oldCount - oldSeen, newCount - newSeen))
    {
      if oldSeen == oldCount && newSeen == newCount {
        break;
      }
      BodyStep(raw, i, oldCount - oldSeen, newCount - newSeen);
      var line := raw[i];
      if line == NO_NEWLINE_MARKER {
        i := i + 1;
        continue;
      }
      if line == "" && i == |raw| - 1 {
        break;
      }
      if line == "" {
        return Err(EmptyLinePanic), i;
      }
      if !IsKind(line[0]) {
        return Err(BadLine), i;
      }
      ghost var seen := lines;
      var l := Line(line[0], line[1..]);
      lines := lines + [l];
      oldSeen, newSeen := oldSeen + SeenOld(line[0]), newSeen + SeenNew(line[0]);
      if oldSeen > oldCount || newSeen > newCount {
        return Err(TooManyLines), i;
      }
      i := i + 1;
      PrependOneMore(seen, l, ParseBody(raw[i..], oldCount - oldSeen, newCount - newSeen));
    }
    assert lines + [] == lines;
    return Ok(lines), i;
  }

  /** parseUnifiedHunk */
  method ParseUnifiedHunk(raw: seq<string>, start: nat) returns (r: Result<Hunk, ParseError>, next: nat)
    requires start < |raw| && HasPrefix(raw[start], "@@ ")
    ensures match ParseHunk(raw[start..])
            case Failed(e) => r == Err(e)
            case Parsed(h, rest) => r == Ok(h) && start < next <= |raw| && rest == raw[next..]
  {
    hide ParseHeader, ParseBody, CountsAgree;
    Suffix(raw, start);
    var header := ParseHeader(raw[start]);
    if header.Err? {
      return Err(header.error), start;
    }
    var hunk := header.value;
    var lines, i := ParseHunkLines(raw, start + 1, hunk.oldCount, hunk.newCount);
    if lines.Err? {
      return Err(lines.error), start;
    }
    hunk := hunk.(lines := lines.value);
    var ok := ValidateHunkCounts(hunk);
    if !ok {
      return Err(BadCounts), start;
    }
    return Ok(hunk), i;
  }

  function PrependHunks(hunks: seq<Hunk>, r: Parsed<seq<Hunk>>): Parsed<seq<Hunk>> {
    if r.Failed? then r else Parsed(hunks + r.value, r.rest)
  }

  lemma {:induction false} HunksStep(raw: seq<string>, i: nat)
    requires i < |raw|
    ensures var here := ParseHunks(raw[i..]);
            if HasPrefix(raw[i], "--- ") then here == Parsed([], raw[i..])
            else if raw[i] == "" && i == |raw| - 1 then here == Parsed([], [])
            else if !HasPrefix(raw[i], "@@ ") then here == ParseHunks(raw[i + 1..])
            else match ParseHunk(raw[i..])
              case Failed(e) => here == Failed(e)
              case Parsed(hunk, rest) => here == PrependHunk(hunk, ParseHunks(rest))
  {
    hide ParseHunk;
    Suffix(raw, i);
  }

  lemma {:induction false} PrependHunksEnds(hunks: seq<Hunk>, r: Parsed<seq<Hunk>>)
    ensures PrependHunks([], r) == r
    ensures r.Failed? ==> PrependHunks(hunks, r) == r
    ensures r.Parsed? && r.value == [] ==> PrependHunks(hunks, r) == Parsed(hunks, r.rest)
  {
    if r.Parsed? {
      assert [] + r.value == r.value && hunks + [] == hunks;
    }
  }

  lemma {:induction false} PrependOneMoreHunk(hunks: seq<Hunk>, h: Hunk, r: Parsed<seq<Hunk>>)
    ensures PrependHunks(hunks, PrependHunk(h, r)) == PrependHunks(hunks + [h], r)
  {
    if r.Parsed? {
      assert hunks + ([h] + r.value) == (hunks + [h]) + r.value;
    }
  }

  /** The hunk loop of parseUnifiedDiff for one file. */
  method ParseFileHunks(raw: seq<string>, first: nat) returns (r: Result<seq<Hunk>, ParseError>, next: nat)
    requires first <= |raw|
    ensures match ParseHunks(raw[first..])
            case Failed(e) => r == Err(e)
            case Parsed(hunks, rest) => r == Ok(hunks) && first <= next <= |raw| && rest == raw[next..]
  {
    assert ParseHunks([]) == Parsed([], []);
    hide ParseHunk, ParseHunks, HasPrefix, PrependHunk, PrependHunks;
    ghost var whole := ParseHunks(raw[first..]);
    var hunks, i := [], first;
    PrependHunksEnds([], whole);
    while i < |raw|
      invariant first <= i <= |raw|
      invariant whole == PrependHunks(hunks, ParseHunks(raw[i..]))
    {
      HunksStep(raw, i);
      PrependHunksEnds(hunks, ParseHunks(raw[i..]));
      if HasPrefix(raw[i], "--- ") {
        return Ok(hunks), i;
      }
      if raw[i] == "" && i == |raw| - 1 {
        return Ok(hunks), i + 1;
      }
      if !HasPrefix(raw[i], "@@ ") {
        i := i + 1;
        continue;
      }
      var hunk, after := ParseUnifiedHunk(raw, i);
      if hunk.Err? {
        return Err(hunk.error), i;
      }
      PrependOneMoreHunk(hunks, hunk.value, ParseHunks(raw[after..]));
      hunks := hunks + [hunk.value];
      i := after;
    }
    PrependHunksEnds(hunks, ParseHunks(raw[i..]));
    return Ok(hunks), i;
  }

  function PrependPatches(patches: seq<FilePatch>, r: Result<seq<FilePatch>, ParseError>): Result<seq<FilePatch>, ParseError> {
    if r.Err? then r else Ok(patches + r.value)
  }

  /** parseUnifiedDiff */
  method ParseUnifiedDiff(diff: string, clean: string -> string) returns (r: Result<seq<FilePatch>, ParseError>)
    ensures r == ParseDiff(diff, clean)
  {
    hide ParseHunks, ParsePath, Split, ReplaceCRLF;
    var raw := Split(ReplaceCRLF(diff));
    ghost var whole := ParseFiles(raw, clean);
    var patches, i := [], 0;
    assert raw[0..] == raw;
    assert whole.Ok? ==> [] + whole.value == whole.value;
    while i < |raw|
      invariant 0 <= i <= |raw|
      invariant whole == PrependPatches(patches, ParseFiles(raw[i..], clean))
    {
      Suffix(raw, i);
      if !HasPrefix(raw[i], "--- ") {
        i := i + 1;
        continue;
      }
      var oldPath := ParsePath(raw[i][4..], clean);
      if i + 1 >= |raw| || !HasPrefix(raw[i + 1], "+++ ") {
        return Err(ExpectedNewHeader);
      }
      var newPath := ParsePath(raw[i + 1][4..], clean);
      assert raw[i..][1] == raw[i + 1] && raw[i..][2..] == raw[i + 2..];
      var hunks, after := ParseFileHunks(raw, i + 2);
      if hunks.Err? {
        return Err(hunks.error);
      }
      if |hunks.value| == 0 {
        return Err(NoHunks);
      }
      var patch := FilePatch(oldPath, newPath, hunks.value);
      ghost var rest := ParseFiles(raw[after..], clean);
      assert rest.Ok? ==> patches + ([patch] + rest.value) == (patches + [patch]) + rest.value;
      patches := patches + [patch];
      i := after;
    }
    assert patches + [] == patches;
    return Ok(patches);
  }
}
