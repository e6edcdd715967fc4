/**
  The string routines of the Go library that the diff parser and the stores rely on:
  splitting and joining at newlines, CRLF replacement, whitespace fields and decimal numbers.
 */
module Text {
  import opened Wrappers

  /** The code points for which Go's unicode.IsSpace holds. */
  predicate IsSpace(c: char) {
    || c == '\t' || c == '\n' || c == '\U{0B}' || c == '\U{0C}' || c == '\r' || c == ' '
    || c == '\U{85}' || c == '\U{A0}' || c == '\U{1680}' || '\U{2000}' <= c <= '\U{200A}'
    || c == '\U{2028}' || c == '\U{2029}' || c == '\U{202F}' || c == '\U{205F}' || c == '\U{3000}'
  }

  predicate NoSpace(s: string) {
    forall c :: c in s ==> !IsSpace(c)
  }

  // ----- Split and Join at newlines -----

  /** strings.Split(s, "\n") */
  function Split(s: string): (lines: seq<string>)
    ensures |lines| >= 1
  {
    if s == "" then [""]
    else
      var rest := Split(s[1..]);
      if s[0] == '\n' then [""] + rest else [[s[0]] + rest[0]] + rest[1..]
  }

  /** strings.Join(lines, "\n") */
  function Join(lines: seq<string>): string {
    if |lines| == 0 then ""
    else if |lines| == 1 then lines[0]
    else lines[0] + "\n" + Join(lines[1..])
  }

  predicate NewlineFree(lines: seq<string>) {
    forall i :: 0 <= i < |lines| ==> '\n' !in lines[i]
  }

  lemma {:induction false} JoinOfSplit(s: string)
    ensures Join(Split(s)) == s && NewlineFree(Split(s))
  {
    if s != "" {
      JoinOfSplit(s[1..]);
      var rest := Split(s[1..]);
      if s[0] == '\n' {
        assert Split(s)[1..] == rest;
      } else if |rest| > 1 {
        assert Split(s)[1..] == rest[1..];
      }
    }
  }

  lemma {:induction false} SplitLine(line: string, rest: string)
    requires '\n' !in line
    ensures Split(line + "\n" + rest) == [line] + Split(rest)
  {
    var s := line + "\n" + rest;
    if line == "" {
      assert s[1..] == rest;
    } else {
      assert s[1..] == line[1..] + "\n" + rest;
      SplitLine(line[1..], rest);
      assert [line[0]] + line[1..] == line;
    }
  }

  lemma {:induction false} SplitSingle(line: string)
    requires '\n' !in line
    ensures Split(line) == [line]
  {
    if line != "" {
      SplitSingle(line[1..]);
      assert [line[0]] + line[1..] == line;
    }
  }

  lemma {:induction false} SplitOfJoin(lines: seq<string>)
    requires lines != [] && NewlineFree(lines)
    ensures Split(Join(lines)) == lines
  {
    if |lines| == 1 {
      SplitSingle(lines[0]);
    } else {
      SplitOfJoin(lines[1..]);
      SplitLine(lines[0], Join(lines[1..]));
    }
  }

  // ----- CRLF -----

  /** strings.ReplaceAll(s, "\r\n", "\n") */
  function ReplaceCRLF(s: string): string {
    if s == "" then ""
    else if |s| >= 2 && s[0] == '\r' && s[1] == '\n' then "\n" + ReplaceCRLF(s[2..])
    else [s[0]] + ReplaceCRLF(s[1..])
  }

  predicate NoCRLF(s: string) {
    forall i :: 0 <= i && i + 1 < |s| && s[i] == '\r' ==> s[i + 1] != '\n'
  }

  predicate NoTrailingCR(lines: seq<string>) {
    forall i :: 0 <= i < |lines| && lines[i] != "" ==> lines[i][|lines[i]| - 1] != '\r'
  }

  lemma {:induction false} ReplaceCRLFIdentity(s: string)
    requires NoCRLF(s)
    ensures ReplaceCRLF(s) == s
  {
    if s != "" {
      assert NoCRLF(s[1..]) by {
        forall i | 0 <= i && i + 1 < |s[1..]| && s[1..][i] == '\r'
          ensures s[1..][i + 1] != '\n'
        {
          assert s[i + 1] == '\r' && s[i + 2] != '\n';
        }
      }
      ReplaceCRLFIdentity(s[1..]);
      assert !(|s| >= 2 && s[0] == '\r' && s[1] == '\n');
    }
  }

  lemma {:induction false} JoinNoCRLF(lines: seq<string>)
    requires NewlineFree(lines) && NoTrailingCR(lines)
    ensures NoCRLF(Join(lines))
  {
    if |lines| > 1 {
      JoinNoCRLF(lines[1..]);
      var l, rest := lines[0], Join(lines[1..]);
      var s := Join(lines);
      assert s == l + "\n" + rest;
      forall i | 0 <= i && i + 1 < |s| && s[i] == '\r'
        ensures s[i + 1] != '\n'
      {
        if i > |l| {
          assert s[i] == rest[i - |l| - 1] && s[i + 1] == rest[i - |l|];
        } else if i + 1 < |l| {
          assert s[i + 1] == l[i + 1];
        }
      }
    }
  }

  // ----- Whitespace -----

  /** strings.TrimLeftFunc(s, unicode.IsSpace) */
  function TrimLeft(s: string): (r: string)
    ensures |r| <= |s| && r == s[|s| - |r|..]
    ensures forall i :: 0 <= i < |s| - |r| ==> IsSpace(s[i])
    ensures r != "" ==> !IsSpace(r[0])
  {
    if s != "" && IsSpace(s[0]) then TrimLeft(s[1..]) else s
  }

  /** strings.TrimRightFunc(s, unicode.IsSpace) */
  function TrimRight(s: string): (r: string)
    ensures |r| <= |s| && r == s[..|r|]
    ensures forall i :: |r| <= i < |s| ==> IsSpace(s[i])
    ensures r != "" ==> !IsSpace(r[|r| - 1])
  {
    if s != "" && IsSpace(s[|s| - 1]) then TrimRight(s[..|s| - 1]) else s
  }

  /** strings.TrimSpace(s) */
  function TrimSpace(s: string): string {
    TrimRight(TrimLeft(s))
  }

  /** strings.Fields(s), with the characters of the field being read in cur */
  function FieldsFrom(s: string, cur: string): seq<string> {
    if s == "" then (if cur == "" then [] else [cur])
    else if IsSpace(s[0]) then (if cur == "" then [] else [cur]) + FieldsFrom(s[1..], "")
    else FieldsFrom(s[1..], cur + [s[0]])
  }

  lemma {:induction false} FieldsToken(token: string, rest: string, cur: string)
    requires NoSpace(token) && cur + token != ""
    ensures FieldsFrom(token + " " + rest, cur) == [cur + token] + FieldsFrom(rest, "")
  {
    var s := token + " " + rest;
    if token == "" {
      assert s[1..] == rest && cur + token == cur;
    } else {
      assert s[1..] == token[1..] + " " + rest;
      assert (cur + [token[0]]) + token[1..] == cur + token;
      FieldsToken(token[1..], rest, cur + [token[0]]);
    }
  }

  predicate HasPrefix(s: string, prefix: string) {
    prefix <= s
  }

  /** strings.TrimPrefix(s, prefix) */
  function TrimPrefix(s: string, prefix: string): string {
    if HasPrefix(s, prefix) then s[|prefix|..] else s
  }

  /** strings.IndexByte(s, c), None for -1 */
  function IndexOf(s: string, c: char): (r: Option<nat>)
    ensures r.Some? ==> r.value < |s| && s[r.value] == c && c !in s[..r.value]
    ensures r.None? <==> c !in s
  {
    if s == "" then None
    else if s[0] == c then Some(0)
    else match IndexOf(s[1..], c)
      case None => None
      case Some(i) => assert s[..i + 1] == [s[0]] + s[1..][..i]; Some(i + 1)
  }

  // ----- Decimal numbers -----

  const MIN_INT := -0x8000_0000_0000_0000
  const MAX_INT := 0x7FFF_FFFF_FFFF_FFFF

  predicate IsDigit(c: char) {
    '0' <= c <= '9'
  }

  predicate AllDigits(s: string) {
    forall c :: c in s ==> IsDigit(c)
  }

  function Value(s: string): nat
    requires AllDigits(s)
  {
    if s == "" then 0
    else
      assert IsDigit(s[|s| - 1]);
      10 * Value(s[..|s| - 1]) + (s[|s| - 1] as int - '0' as int)
  }

  /** strconv.Atoi on a 64-bit platform, None for a syntax or range error */
  function Atoi(s: string): Option<int> {
    if s == "" then None
    else
      var body := if s[0] == '+' || s[0] == '-' then s[1..] else s;
      if body == "" || !AllDigits(body) then None
      else
        var magnitude: int := Value(body);
        var v := if s[0] == '-' then -magnitude else magnitude;
        if MIN_INT <= v <= MAX_INT then Some(v) else None
  }

  function PrintNat(n: nat): (s: string)
    ensures s != "" && AllDigits(s) && Value(s) == n
  {
    var digit := "0123456789"[n % 10];
    assert digit as int - '0' as int == n % 10;
    if n < 10 then
      assert [digit][..0] == "";
      [digit]
    else
      var front := PrintNat(n / 10);
      assert (front + [digit])[..|front|] == front;
      front + [digit]
  }

  /** The decimal text of fmt's %d */
  function PrintInt(n: int): string {
    if n < 0 then "-" + PrintNat(-n) else PrintNat(n)
  }

  lemma {:induction false} AtoiOfPrintInt(n: int)
    requires MIN_INT <= n <= MAX_INT
    ensures Atoi(PrintInt(n)) == Some(n)
    ensures NoSpace(PrintInt(n)) && ',' !in PrintInt(n) && '@' !in PrintInt(n) && PrintInt(n) != ""
  {
    var s := PrintInt(n);
    var digits := PrintNat(if n < 0 then -n else n);
    if n < 0 {
      assert s[1..] == digits;
    } else {
      assert IsDigit(s[0]);
    }
    forall c | c in s
      ensures c == '-' || IsDigit(c)
    {
    }
  }
}
