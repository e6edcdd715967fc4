/**
  agent.go, assistantTextStreamNormalizer: the rewriting of whitespace between the text chunks of a
  model stream. Text is a sequence of code points; the Unicode tables of the Go library other than
  unicode.IsSpace are a parameter.
 */
module StreamText {
  import opened Wrappers
  import opened Text

  const NUL := '\U{0}'

  datatype Unicode = Unicode(
    isLetter: char -> bool, isDigit: char -> bool, isUpper: char -> bool, isLower: char -> bool,
    toLower: string -> string)

  predicate StartsPunctuation(c: char) {
    c == '.' || c == ',' || c == ';' || c == ':' || c == '!' || c == '?' || c == ')' || c == ']' || c == '}'
  }

  /** Letters and digits are no punctuation. */
  ghost predicate Sane(u: Unicode) {
    forall c: char :: u.isLetter(c) || u.isDigit(c) || u.isUpper(c) || u.isLower(c) ==> !StartsPunctuation(c)
  }

  // ----- Looking at text -----

  predicate AllSpace(s: string) {
    forall i :: 0 <= i < |s| ==> IsSpace(s[i])
  }

  function Leading(text: string): string {
    text[..|text| - |TrimLeft(text)|]
  }

  function Trailing(text: string): string {
    TrimLeft(text)[|TrimSpace(text)|..]
  }

  function CountNewlines(s: string): nat {
    if s == "" then 0 else CountNewlines(s[1..]) + (if s[0] == '\n' then 1 else 0)
  }

  function FirstNonSpace(s: string): char {
    if s == "" then NUL else if IsSpace(s[0]) then FirstNonSpace(s[1..]) else s[0]
  }

  function LastNonSpace(s: string): char {
    if s == "" then NUL else if IsSpace(s[|s| - 1]) then LastNonSpace(s[..|s| - 1]) else s[|s| - 1]
  }

  /** The first run of characters that are not spaces. */
  function LeadingToken(s: string): string {
    TokenAt(TrimLeft(s))
  }

  function TokenAt(s: string): string {
    if s == "" || IsSpace(s[0]) then "" else [s[0]] + TokenAt(s[1..])
  }

  /** The last run of characters, empty when the text ends in a space. */
  function TrailingToken(s: string): string {
    if s == "" || IsSpace(s[|s| - 1]) then "" else TrailingToken(s[..|s| - 1]) + [s[|s| - 1]]
  }

  predicate HasHorizontalSpace(s: string) {
    exists i :: 0 <= i < |s| && s[i] != '\n' && s[i] != '\r' && IsSpace(s[i])
  }

  predicate OrderedFrom(s: string, digits: nat, u: Unicode) {
    s != "" && if u.isDigit(s[0]) then OrderedFrom(s[1..], digits + 1, u) else digits > 0 && s[0] == '.'
  }

  predicate StartsOrderedList(s: string, u: Unicode) {
    OrderedFrom(s, 0, u)
  }

  /** What is put between two pieces of text: nothing, the whitespace as it came, or one of three fixed separators. */
  datatype Gap = Nothing | AsIs | Newline | BlankLine | Blank

  function Render(g: Gap, whitespace: string): string {
    match g
    case Nothing => ""
    case AsIs => whitespace
    case Newline => "\n"
    case BlankLine => "\n\n"
    case Blank => " "
  }

  function PreservedBreakPrefix(next: string, u: Unicode): Option<Gap> {
    var t := TrimSpace(next);
    if t == "" then None
    else if HasPrefix(t, "```") || HasPrefix(t, "#") || HasPrefix(t, ">") || HasPrefix(t, "|") then Some(BlankLine)
    else if HasPrefix(t, "- ") || HasPrefix(t, "* ") || HasPrefix(t, "+ ") then Some(BlankLine)
    else if t == "-" || t == "*" || t == "+" then Some(Newline)
    else if StartsOrderedList(t, u) then Some(if ' ' in t || '\t' in t then BlankLine else Newline)
    else None
  }

  predicate LineStartsList(s: string, u: Unicode) {
    var t := TrimSpace(s);
    HasPrefix(t, "- ") || HasPrefix(t, "* ") || HasPrefix(t, "+ ") || StartsOrderedList(t, u)
  }

  predicate LinePreservesFollowingBreak(s: string, u: Unicode) {
    var t := TrimSpace(s);
    LineStartsList(t, u) || HasPrefix(t, "#") || HasPrefix(t, ">") || HasPrefix(t, "|") || HasPrefix(t, "```")
  }

  function LastTrimmedLine(s: string): string {
    var t := TrimRight(s);
    if t == "" then "" else TrimSpace(AfterLastNewline(t))
  }

  function AfterLastNewline(s: string): string {
    if s == "" || s[|s| - 1] == '\n' then "" else AfterLastNewline(s[..|s| - 1]) + [s[|s| - 1]]
  }

  predicate IsWord(c: char, u: Unicode) {
    u.isLetter(c) || u.isDigit(c)
  }

  predicate ShouldJoin(prev: char, prevTokenFirst: char, prevTokenLength: nat, next: string, u: Unicode) {
    var c := FirstNonSpace(next);
    if prev == NUL || c == NUL then false
    else if prev in "./_-#`*" && IsWord(c, u) then
      !(prev == '.' && (u.isUpper(c) || (u.isUpper(prevTokenFirst) && prevTokenLength > 3)))
    else if IsWord(prev, u) && IsWord(c, u) then
      var n := |LeadingToken(next)|;
      prevTokenLength > 0 && n > 0 && (prevTokenLength <= 3 || n <= 3)
    else false
  }

  predicate EndsSentence(c: char) {
    c == '.' || c == '!' || c == '?'
  }

  predicate ParagraphStarter(s: string, u: Unicode) {
    u.toLower(LeadingToken(s)) in ["but", "so", "yet", "then", "thus", "therefore", "however"]
  }

  const JOIN_WORDS := [
    "a", "all", "an", "and", "any", "are", "as", "at", "by", "can", "did", "for", "had", "has", "he", "her", "his",
    "if", "in", "is", "it", "me", "my", "no", "nor", "not", "of", "old", "on", "one", "or", "our", "run", "so", "the",
    "to", "up", "us", "was", "we", "yet", "you"]

  predicate WordJoinWord(s: string, u: Unicode) {
    u.toLower(LeadingToken(s)) in JOIN_WORDS
  }

  function BlankSeparatedPrefix(prev: char, prevTokenFirst: char, prevTokenLength: nat, next: string, u: Unicode): Option<Gap> {
    var c := FirstNonSpace(next);
    var n := |LeadingToken(next)|;
    if prev == NUL || c == NUL then None
    else if c == '/' then (if 0 < n <= 3 then Some(Nothing) else None)
    else if prevTokenFirst == '/' && prevTokenLength > 0 && u.isLower(c) then Some(Nothing)
    else if prev in "/_-#`*" && IsWord(c, u) then Some(Nothing)
    else if EndsSentence(prev) && u.isUpper(c) && n <= 3 then Some(Blank)
    else if !IsWord(prev, u) || !IsWord(c, u) then None
    else if ParagraphStarter(next, u) then None
    else if WordJoinWord(next, u) then Some(Blank)
    else if (prevTokenFirst == 'a' || prevTokenFirst == 'A') && prevTokenLength == 1 && u.isLower(c) then Some(Blank)
    else if prevTokenLength == 1 && prev != 'I' && u.isLower(c) then Some(Nothing)
    else if 0 < prevTokenLength <= 3 && 0 < n <= 3 && u.isLower(prevTokenFirst) && u.isLower(c) then Some(Nothing)
    else if u.isLower(c) then Some(Blank)
    else None
  }

  // ----- The normaliser -----

  datatype State = State(
    pending: string, lastTokenFirst: char, lastTokenLength: nat, lastLine: string, lastRune: char, emitted: bool)

  const FRESH := State("", NUL, 0, "", NUL, false)

  /** The separator for whitespace with that many newlines, with or without a blank or tab among them. */
  function Choose(n: State, newlines: nat, horizontal: bool, core: string, u: Unicode): Gap {
    var first := FirstNonSpace(core);
    if first == NUL then Nothing
    else if newlines == 0 then (if StartsPunctuation(first) then Nothing else AsIs)
    else if newlines == 1 then (if StartsPunctuation(first) && first != '/' then Nothing else Newline)
    else if PreservedBreakPrefix(core, u).Some? then PreservedBreakPrefix(core, u).value
    else if LinePreservesFollowingBreak(n.lastLine, u) then BlankLine
    else if horizontal then Blank
    else if first != '/' && StartsPunctuation(first) then Nothing
    else if newlines > 2 && ShouldJoin(n.lastRune, n.lastTokenFirst, n.lastTokenLength, core, u) then Nothing
    else
      var blank := BlankSeparatedPrefix(n.lastRune, n.lastTokenFirst, n.lastTokenLength, core, u);
      if newlines == 2 && blank.Some? then blank.value
      else if newlines > 2 then Blank
      else BlankLine
  }

  /** The whitespace put before core when whitespace separates it from what was emitted. */
  function Prefix(n: State, whitespace: string, core: string, u: Unicode): string {
    if whitespace == "" || !n.emitted then ""
    else Render(Choose(n, CountNewlines(whitespace), HasHorizontalSpace(whitespace), core, u), whitespace)
  }

  function Remember(n: State, core: string): State {
    if LastNonSpace(core) == NUL then n
    else
      var token := TrailingToken(core);
      n.(lastRune := LastNonSpace(core),
         lastTokenFirst := if token == "" then NUL else token[0],
         lastTokenLength := |token|,
         lastLine := LastTrimmedLine(core),
         emitted := true)
  }

  function Output(n: State, text: string, u: Unicode): string {
    if TrimSpace(text) == "" then "" else Prefix(n, n.pending + Leading(text), TrimSpace(text), u) + TrimSpace(text)
  }

  function Next(n: State, text: string): State {
    if text == "" then n
    else if TrimSpace(text) == "" then n.(pending := n.pending + text)
    else Remember(n.(pending := Trailing(text)), TrimSpace(text))
  }

  /** assistantTextStreamNormalizer */
  class Normalizer {
    var pendingWhitespace: string
    var lastTokenFirst: char
    var lastTokenLength: nat
    var lastLineTrimmed: string
    var lastRune: char
    var emitted: bool

    function Value(): State
      reads this
    {
      State(pendingWhitespace, lastTokenFirst, lastTokenLength, lastLineTrimmed, lastRune, emitted)
    }

    constructor ()
      ensures Value() == FRESH
    {
      pendingWhitespace, lastTokenFirst, lastTokenLength := "", NUL, 0;
      lastLineTrimmed, lastRune, emitted := "", NUL, false;
    }

    /** push */
    method Push(text: string, u: Unicode) returns (out: string)
      modifies this
      ensures out == Output(old(Value()), text, u) && Value() == Next(old(Value()), text)
    {
      hide Prefix, LastNonSpace, TrailingToken, LastTrimmedLine;
      if text == "" {
        return "";
      }
      var core := TrimSpace(text);
      if core == "" {
        pendingWhitespace := pendingWhitespace + text;
        return "";
      }
      var prefix := Prefix(Value(), pendingWhitespace + Leading(text), core, u);
      pendingWhitespace := Trailing(text);
      var last := LastNonSpace(core);
      if last != NUL {
        var token := TrailingToken(core);
        lastRune := last;
        lastTokenFirst := if token == "" then NUL else token[0];
        lastTokenLength := |token|;
        lastLineTrimmed := LastTrimmedLine(core);
        emitted := true;
      }
      return prefix + core;
    }
  }

  // ----- What one push does -----

  lemma {:induction false} Parts(text: string)
    ensures text == Leading(text) + TrimSpace(text) + Trailing(text)
    ensures AllSpace(Leading(text)) && AllSpace(Trailing(text))
    ensures TrimSpace(text) != "" ==> !IsSpace(TrimSpace(text)[0]) && !IsSpace(TrimSpace(text)[|TrimSpace(text)| - 1])
  {
    hide TrimLeft, TrimRight, IsSpace;
    var trimmed := TrimLeft(text);
    assert text == Leading(text) + trimmed;
    assert trimmed == TrimSpace(text) + Trailing(text);
    if TrimSpace(text) != "" {
      assert TrimSpace(text)[0] == trimmed[0];
    }
  }

  lemma {:induction false} NewlineBound(s: string)
    ensures CountNewlines(s) <= |s|
  {
    if s != "" { NewlineBound(s[1..]); }
  }

  /** Only whitespace is put in, and never more than was there. */
  lemma {:induction false} PrefixIsSpace(n: State, whitespace: string, core: string, u: Unicode)
    requires AllSpace(whitespace)
    ensures AllSpace(Prefix(n, whitespace, core, u)) && |Prefix(n, whitespace, core, u)| <= |whitespace|
    ensures !n.emitted ==> Prefix(n, whitespace, core, u) == ""
  {
    hide Choose, HasHorizontalSpace, CountNewlines, IsSpace;
    ChoiceFits(n, CountNewlines(whitespace), HasHorizontalSpace(whitespace), core, u);
    NewlineBound(whitespace);
    SpaceLiterals();
  }

  lemma {:induction false} SpaceLiterals()
    ensures AllSpace("") && AllSpace(" ") && AllSpace("\n") && AllSpace("\n\n")
  {
  }

  lemma {:induction false} ChoiceFits(n: State, newlines: nat, horizontal: bool, core: string, u: Unicode)
    ensures var g := Choose(n, newlines, horizontal, core, u);
            && (g.AsIs? ==> newlines == 0) && (g.Newline? ==> newlines >= 1)
            && (g.BlankLine? ==> newlines >= 2) && (g.Blank? ==> newlines >= 2)
  {
    hide LinePreservesFollowingBreak, ShouldJoin, FirstNonSpace, PreservedBreakPrefix, BlankSeparatedPrefix;
    BreakPrefixes(core, u);
    BlankPrefixes(n.lastRune, n.lastTokenFirst, n.lastTokenLength, core, u);
  }

  lemma {:induction false} BreakPrefixes(core: string, u: Unicode)
    ensures var p := PreservedBreakPrefix(core, u); p.Some? ==> p.value.Newline? || p.value.BlankLine?
  {
  }

  lemma {:induction false} BlankPrefixes(prev: char, first: char, length: nat, core: string, u: Unicode)
    ensures var p := BlankSeparatedPrefix(prev, first, length, core, u); p.Some? ==> p.value.Nothing? || p.value.Blank?
  {
    hide ParagraphStarter, WordJoinWord, FirstNonSpace, LeadingToken, IsWord, EndsSentence;
  }

  function NonSpace(s: string): string {
    if s == "" then "" else (if IsSpace(s[0]) then "" else [s[0]]) + NonSpace(s[1..])
  }

  lemma {:induction false} NonSpaceCons(c: char, s: string)
    ensures NonSpace([c] + s) == (if IsSpace(c) then "" else [c]) + NonSpace(s)
  {
    hide IsSpace;
    assert ([c] + s)[1..] == s;
  }

  lemma {:induction false} NonSpaceConcat(a: string, b: string)
    ensures NonSpace(a + b) == NonSpace(a) + NonSpace(b)
    decreases |a|
  {
    hide NonSpace, IsSpace;
    if a == "" {
      assert NonSpace("") == "" by { NonSpaceOfSpaces(""); }
      assert a + b == b && "" + NonSpace(b) == NonSpace(b);
    } else {
      var c, rest := a[0], a[1..];
      NonSpaceConcat(rest, b);
      NonSpaceCons(c, rest);
      NonSpaceCons(c, rest + b);
      assert [c] + rest == a && [c] + (rest + b) == a + b;
      Associates(if IsSpace(c) then "" else [c], NonSpace(rest), NonSpace(b));
    }
  }

  lemma {:induction false} Associates(a: string, b: string, c: string)
    ensures a + (b + c) == (a + b) + c
  {
  }

  lemma {:induction false} NonSpaceOfSpaces(s: string)
    requires AllSpace(s)
    ensures NonSpace(s) == ""
  {
    hide IsSpace;
    if s != "" {
      NonSpaceOfSpaces(s[1..]);
    }
  }

  predicate Valid(n: State) {
    AllSpace(n.pending)
  }

  predicate Trimmed(s: string) {
    s != "" ==> !IsSpace(s[0]) && !IsSpace(s[|s| - 1])
  }

  lemma {:induction false} PushEffect(n: State, text: string, u: Unicode)
    requires Valid(n)
    ensures Valid(Next(n, text))
    ensures NonSpace(Output(n, text, u)) == NonSpace(text)
    ensures |Output(n, text, u)| + |Next(n, text).pending| <= |n.pending| + |text|
    ensures var out := Output(n, text, u);
            out != "" ==> !IsSpace(out[|out| - 1]) && (!n.emitted ==> !IsSpace(out[0]))
    ensures Output(n, text, u) == "" ==> Next(n, text).emitted == n.emitted
  {
    hide Prefix, IsSpace, TrimLeft, TrimRight, LastNonSpace, TrailingToken, LastTrimmedLine, NonSpace;
    var leading, core, trailing := Leading(text), TrimSpace(text), Trailing(text);
    Parts(text);
    hide Leading, TrimSpace, Trailing;
    NonSpaceOfSpaces(leading);
    NonSpaceOfSpaces(trailing);
    NonSpaceConcat(leading, core);
    NonSpaceConcat(leading + core, trailing);
    if core == "" {
      NonSpaceOfSpaces("");
    } else {
      var whitespace := n.pending + leading;
      PrefixIsSpace(n, whitespace, core, u);
      var prefix := Prefix(n, whitespace, core, u);
      NonSpaceOfSpaces(prefix);
      NonSpaceConcat(prefix, core);
      assert "" + NonSpace(core) == NonSpace(core) && NonSpace(core) + "" == NonSpace(core);
    }
  }

  // ----- Whole streams -----

  function Outputs(n: State, chunks: seq<string>, u: Unicode): seq<string>
    decreases |chunks|
  {
    if chunks == [] then [] else [Output(n, chunks[0], u)] + Outputs(Next(n, chunks[0]), chunks[1..], u)
  }

  function Flat(chunks: seq<string>): string {
    if chunks == [] then "" else chunks[0] + Flat(chunks[1..])
  }

  lemma {:induction false} StreamFrom(n: State, chunks: seq<string>, u: Unicode)
    requires Valid(n)
    ensures var out := Flat(Outputs(n, chunks, u));
            && NonSpace(out) == NonSpace(Flat(chunks))
            && |out| <= |n.pending| + |Flat(chunks)|
            && (out != "" ==> !IsSpace(out[|out| - 1]) && (!n.emitted ==> !IsSpace(out[0])))
    decreases |chunks|
  {
    hide IsSpace, Output, Next, NonSpace;
    if chunks != [] {
      var head, n' := Output(n, chunks[0], u), Next(n, chunks[0]);
      PushEffect(n, chunks[0], u);
      StreamFrom(n', chunks[1..], u);
      var rest := Flat(Outputs(n', chunks[1..], u));
      assert Outputs(n, chunks, u)[1..] == Outputs(n', chunks[1..], u);
      assert Flat(Outputs(n, chunks, u)) == head + rest;
      NonSpaceConcat(head, rest);
      NonSpaceConcat(chunks[0], Flat(chunks[1..]));
    }
  }

  /** Only whitespace changes, the text does not grow, and no whitespace surrounds the result. */
  lemma {:induction false} StreamTouchesOnlyWhitespace(chunks: seq<string>, u: Unicode)
    ensures var out := Flat(Outputs(FRESH, chunks, u));
            NonSpace(out) == NonSpace(Flat(chunks)) && |out| <= |Flat(chunks)| && Trimmed(out)
  {
    StreamFrom(FRESH, chunks, u);
  }

  // ----- Replaying a stored stream -----

  /**
    The one case that is not stable: two or more newlines with a blank among them, in front of
    punctuation, become a blank, and a blank in front of punctuation disappears.
   */
  predicate Collapses(n: State, whitespace: string, core: string, u: Unicode) {
    && n.emitted && CountNewlines(whitespace) >= 2 && FirstNonSpace(core) != NUL
    && PreservedBreakPrefix(core, u).None? && !LinePreservesFollowingBreak(n.lastLine, u)
    && HasHorizontalSpace(whitespace) && StartsPunctuation(FirstNonSpace(core))
  }

  lemma {:induction false} NewlineCounts()
    ensures CountNewlines("") == 0 && CountNewlines(" ") == 0 && CountNewlines("\n") == 1 && CountNewlines("\n\n") == 2
    ensures HasHorizontalSpace(" ") && !HasHorizontalSpace("\n") && !HasHorizontalSpace("\n\n")
  {
    assert " "[1..] == "" && "\n"[1..] == "" && "\n\n"[1..] == "\n";
    assert IsSpace(" "[0]);
  }

  lemma {:induction false} NewlinePrefixFollows(core: string, u: Unicode)
    requires Sane(u) && core != "" && !IsSpace(core[0]) && Trimmed(core)
    ensures var p := PreservedBreakPrefix(core, u); p == Some(Newline) ==> !StartsPunctuation(FirstNonSpace(core))
  {
    TrimmedIsCore(core);
    assert FirstNonSpace(core) == core[0];
    hide TrimSpace;
    if PreservedBreakPrefix(core, u) == Some(Newline) && StartsOrderedList(core, u) {
      assert OrderedFrom(core, 0, u) && u.isDigit(core[0]);
    }
  }

  lemma {:induction false} TrimmedIsCore(core: string)
    requires Trimmed(core)
    ensures TrimSpace(core) == core
  {
  }

  lemma {:induction false} BlankPrefixFollows(prev: char, first: char, length: nat, core: string, u: Unicode)
    requires Sane(u)
    ensures BlankSeparatedPrefix(prev, first, length, core, u) == Some(Blank) ==> !StartsPunctuation(FirstNonSpace(core))
  {
    hide ParagraphStarter, WordJoinWord, FirstNonSpace, LeadingToken;
  }

  /** What the choice for one separator becomes when the separator is read back. */
  lemma {:induction false} ChoiceReplayed(n: State, newlines: nat, horizontal: bool, core: string, u: Unicode)
    requires Sane(u) && core != "" && Trimmed(core)
    ensures var g, first := Choose(n, newlines, horizontal, core, u), FirstNonSpace(core);
            match g
            case Nothing => true
            case AsIs => newlines == 0
            case Newline => Choose(n, 1, false, core, u).Newline?
            case BlankLine => Choose(n, 2, false, core, u).BlankLine?
            case Blank =>
              && newlines >= 2 && PreservedBreakPrefix(core, u).None? && !LinePreservesFollowingBreak(n.lastLine, u)
              && first != NUL && (StartsPunctuation(first) ==> horizontal)
              && Choose(n, 0, true, core, u) == (if StartsPunctuation(first) then Nothing else AsIs)
    ensures newlines >= 2 && horizontal && FirstNonSpace(core) != NUL && StartsPunctuation(FirstNonSpace(core))
            && PreservedBreakPrefix(core, u).None? && !LinePreservesFollowingBreak(n.lastLine, u) ==>
            Choose(n, newlines, horizontal, core, u).Blank?
  {
    hide PreservedBreakPrefix, BlankSeparatedPrefix, LinePreservesFollowingBreak, ShouldJoin, FirstNonSpace, IsSpace, Sane;
    NewlinePrefixFollows(core, u);
    BreakPrefixes(core, u);
    BlankPrefixes(n.lastRune, n.lastTokenFirst, n.lastTokenLength, core, u);
    BlankPrefixFollows(n.lastRune, n.lastTokenFirst, n.lastTokenLength, core, u);
  }

  /** Normalising what was put in again changes nothing, except in the collapsing case, where it is lost. */
  lemma {:induction false} PrefixReplayed(n: State, whitespace: string, core: string, u: Unicode)
    requires Sane(u) && core != "" && Trimmed(core)
    ensures var once := Prefix(n, whitespace, core, u);
            var twice := Prefix(n, once, core, u);
            if Collapses(n, whitespace, core, u) then once == " " && twice == "" else twice == once
  {
    hide Choose, CountNewlines, HasHorizontalSpace, PreservedBreakPrefix, LinePreservesFollowingBreak, FirstNonSpace,
      IsSpace, Sane, StartsPunctuation;
    NewlineCounts();
    ChoiceReplayed(n, CountNewlines(whitespace), HasHorizontalSpace(whitespace), core, u);
  }

  /** The state in a replay: the same, with no whitespace pending. */
  function Settled(n: State): State {
    n.(pending := "")
  }

  lemma {:induction false} PrefixIgnoresPending(n: State, whitespace: string, core: string, u: Unicode)
    ensures Prefix(Settled(n), whitespace, core, u) == Prefix(n, whitespace, core, u)
  {
    hide CountNewlines, HasHorizontalSpace, Render, PreservedBreakPrefix, BlankSeparatedPrefix,
      LinePreservesFollowingBreak, ShouldJoin, FirstNonSpace;
  }

  lemma {:induction false} TrimLeftCons(c: char, s: string)
    ensures TrimLeft([c] + s) == if IsSpace(c) then TrimLeft(s) else [c] + s
  {
    hide IsSpace;
    assert ([c] + s)[1..] == s;
  }

  lemma {:induction false} TrimLeftSpaces(spaces: string, s: string)
    requires AllSpace(spaces) && s != "" && !IsSpace(s[0])
    ensures TrimLeft(spaces + s) == s
    decreases |spaces|
  {
    hide IsSpace, TrimLeft;
    if spaces == "" {
      assert spaces + s == s && [s[0]] + s[1..] == s;
      TrimLeftCons(s[0], s[1..]);
    } else {
      var c, rest := spaces[0], spaces[1..];
      TrimLeftSpaces(rest, s);
      TrimLeftCons(c, rest + s);
      assert [c] + (rest + s) == spaces + s;
    }
  }

  lemma {:induction false} OutputParts(prefix: string, core: string)
    requires AllSpace(prefix) && core != "" && Trimmed(core)
    ensures Leading(prefix + core) == prefix && TrimSpace(prefix + core) == core && Trailing(prefix + core) == ""
  {
    TrimLeftSpaces(prefix, core);
    assert TrimRight(core) == core;
  }

  predicate CollapsesAt(n: State, text: string, u: Unicode) {
    TrimSpace(text) != "" && Collapses(n, n.pending + Leading(text), TrimSpace(text), u)
  }

  lemma {:induction false} PushBlankText(n: State, text: string, u: Unicode)
    requires TrimSpace(text) == ""
    ensures Output(n, text, u) == "" && Settled(Next(n, text)) == Settled(n) && !CollapsesAt(n, text, u)
  {
    hide TrimSpace, Prefix, Collapses;
  }

  lemma {:induction false} NoText()
    ensures TrimSpace("") == ""
  {
  }

  /** Output and next state for a text that says something. */
  lemma {:induction false} PushText(n: State, text: string, u: Unicode)
    requires TrimSpace(text) != ""
    ensures Output(n, text, u) == Prefix(n, n.pending + Leading(text), TrimSpace(text), u) + TrimSpace(text)
    ensures Next(n, text) == Remember(n.(pending := Trailing(text)), TrimSpace(text))
    ensures CollapsesAt(n, text, u) <==> Collapses(n, n.pending + Leading(text), TrimSpace(text), u)
  {
    hide Prefix, Collapses, Leading, Trailing, Remember;
    if text == "" {
      NoText();
    }
    hide TrimSpace;
  }

  lemma {:induction false} RememberSettled(n: State, pending: string, core: string)
    ensures Settled(Remember(n.(pending := pending), core)) == Remember(Settled(n).(pending := ""), core)
  {
    hide LastNonSpace, TrailingToken, LastTrimmedLine;
  }

  lemma {:induction false} CoreIsTrimmed(text: string)
    ensures AllSpace(Leading(text)) && Trimmed(TrimSpace(text))
  {
    hide IsSpace, Leading, Trailing, TrimSpace;
    Parts(text);
  }

  lemma {:induction false} SpacesJoin(a: string, b: string)
    requires AllSpace(a) && AllSpace(b)
    ensures AllSpace(a + b)
  {
    hide IsSpace;
  }

  /** Pushing an output again, in a state without pending whitespace. */
  lemma {:induction false} PushReplayed(n: State, text: string, u: Unicode)
    requires Sane(u) && Valid(n)
    ensures var once := Output(n, text, u);
            && Next(Settled(n), once) == Settled(Next(n, text))
            && (if CollapsesAt(n, text, u) then |Output(Settled(n), once, u)| < |once| else Output(Settled(n), once, u) == once)
  {
    hide Prefix, Collapses, TrimSpace, Leading, Trailing, Remember, Output, Next, CollapsesAt, AllSpace, Trimmed, Sane;
    var core := TrimSpace(text);
    if core == "" {
      PushBlankText(n, text, u);
      NoText();
      PushBlankText(Settled(n), "", u);
      NothingPushed(Settled(n));
    } else {
      var whitespace := n.pending + Leading(text);
      CoreIsTrimmed(text);
      SpacesJoin(n.pending, Leading(text));
      PrefixIsSpace(n, whitespace, core, u);
      var prefix := Prefix(n, whitespace, core, u);
      PushText(n, text, u);
      OutputParts(prefix, core);
      PushText(Settled(n), prefix + core, u);
      assert "" + prefix == prefix;
      PrefixReplayed(n, whitespace, core, u);
      PrefixIgnoresPending(n, prefix, core, u);
      RememberSettled(n, Trailing(text), core);
      assert |prefix + core| == |prefix| + |core| && |"" + core| == |core| && |" " + core| == 1 + |core|;
    }
  }

  lemma {:induction false} NothingPushed(n: State)
    ensures Next(n, "") == n
  {
  }

  predicate CollapseFree(n: State, chunks: seq<string>, u: Unicode)
    decreases |chunks|
  {
    chunks == [] || (!CollapsesAt(n, chunks[0], u) && CollapseFree(Next(n, chunks[0]), chunks[1..], u))
  }

  lemma {:induction false} ReplayFrom(n: State, chunks: seq<string>, u: Unicode)
    requires Sane(u) && Valid(n)
    ensures var once := Outputs(n, chunks, u);
            var twice := Outputs(Settled(n), once, u);
            if CollapseFree(n, chunks, u) then twice == once else |Flat(twice)| < |Flat(once)|
    decreases |chunks|
  {
    hide Output, Next, CollapsesAt, Valid, IsSpace;
    if chunks != [] {
      var n' := Next(n, chunks[0]);
      PushEffect(n, chunks[0], u);
      PushReplayed(n, chunks[0], u);
      ReplayFrom(n', chunks[1..], u);
      var once, rest := Outputs(n, chunks, u), Outputs(n', chunks[1..], u);
      assert once[0] == Output(n, chunks[0], u) && once[1..] == rest;
      var twice := Outputs(Settled(n), once, u);
      assert twice[0] == Output(Settled(n), once[0], u) && twice[1..] == Outputs(Settled(n'), rest, u);
    }
  }

  /** A stored stream reads back unchanged exactly when no chunk hits the collapsing case. */
  lemma {:induction false} ReplayStableIff(chunks: seq<string>, u: Unicode)
    requires Sane(u)
    ensures var once := Outputs(FRESH, chunks, u);
            Flat(Outputs(FRESH, once, u)) == Flat(once) <==> CollapseFree(FRESH, chunks, u)
  {
    ReplayFrom(FRESH, chunks, u);
  }

  /** Text that is already trimmed passes a fresh normaliser unchanged. */
  lemma {:induction false} TrimmedPasses(text: string, u: Unicode)
    requires Trimmed(text)
    ensures Output(FRESH, text, u) == text && Next(FRESH, text).pending == ""
  {
    hide IsSpace, Leading, TrimSpace, Trailing, LastNonSpace, TrailingToken, LastTrimmedLine;
    if text == "" {
      Parts("");
    } else {
      OutputParts("", text);
      assert "" + text == text;
    }
  }

  /** Pushing an output through a fresh normaliser instead: what was put before the text is lost. */
  lemma {:induction false} PushRestarted(n: State, text: string, u: Unicode)
    requires Valid(n)
    ensures var core, once := TrimSpace(text), Output(n, text, u);
            if core == "" then once == "" && Settled(Next(n, text)) == Settled(n)
            else
              && once == Prefix(n, n.pending + Leading(text), core, u) + core && Output(FRESH, once, u) == core
              && Next(FRESH, once) == (if LastNonSpace(core) == NUL then FRESH else Settled(Next(n, text)))
  {
    hide Prefix, TrimSpace, Leading, Trailing, Remember, Output, Next, AllSpace, Trimmed, LastNonSpace;
    var core := TrimSpace(text);
    if core == "" {
      PushBlankText(n, text, u);
    } else {
      var whitespace := n.pending + Leading(text);
      CoreIsTrimmed(text);
      SpacesJoin(n.pending, Leading(text));
      PrefixIsSpace(n, whitespace, core, u);
      var prefix := Prefix(n, whitespace, core, u);
      PushText(n, text, u);
      OutputParts(prefix, core);
      PushText(FRESH, prefix + core, u);
      FreshPrefix(prefix, core, u);
      RememberFresh(n, Trailing(text), core);
      assert "" + core == core && FRESH.pending + prefix == "" + prefix;
    }
  }

  lemma {:induction false} RememberFresh(n: State, pending: string, core: string)
    ensures Remember(FRESH.(pending := ""), core) ==
            if LastNonSpace(core) == NUL then FRESH else Settled(Remember(n.(pending := pending), core))
  {
    hide LastNonSpace, TrailingToken, LastTrimmedLine;
  }

  lemma {:induction false} FreshPrefix(whitespace: string, core: string, u: Unicode)
    ensures Prefix(FRESH, "" + whitespace, core, u) == ""
  {
  }

  lemma {:induction false} Pieces(leading: string, core: string)
    requires AllSpace(leading) && core != "" && Trimmed(core)
    ensures TrimSpace(leading + core) == core && Leading(leading + core) == leading && Trailing(leading + core) == ""
  {
    OutputParts(leading, core);
  }

  lemma {:induction false} OneCharTrimmed(c: char)
    requires !IsSpace(c)
    ensures Trimmed([c]) && TrimSpace([c]) == [c] && TrimRight([c]) == [c] && FirstNonSpace([c]) == c && LastNonSpace([c]) == c
  {
    hide IsSpace;
  }

  lemma {:induction false} OneCharToken(c: char)
    requires !IsSpace(c) && c != '\n'
    ensures TrailingToken([c]) == [c] && AfterLastNewline([c]) == [c]
  {
    hide IsSpace;
    var s := [c];
    assert s[..0] == "" && s[|s| - 1] == c;
    assert TrailingToken("") == "" && AfterLastNewline("") == "";
    assert TrailingToken(s) == TrailingToken(s[..0]) + [c];
    assert AfterLastNewline(s) == AfterLastNewline(s[..0]) + [c];
  }

  lemma {:induction false} OneChar(c: char)
    requires !IsSpace(c) && c != '\n'
    ensures Trimmed([c]) && TrimSpace([c]) == [c] && FirstNonSpace([c]) == c
    ensures LastNonSpace([c]) == c && TrailingToken([c]) == [c] && LastTrimmedLine([c]) == [c]
  {
    OneCharTrimmed(c);
    OneCharToken(c);
    hide IsSpace, TrimSpace, TrimRight, TrimLeft, FirstNonSpace, LastNonSpace, TrailingToken, AfterLastNewline;
  }

  /** A line of this character alone is just text. */
  predicate Ordinary(c: char) {
    && !IsSpace(c) && c != NUL && c != '\n' && c != '.'
    && c != '-' && c != '*' && c != '+' && c != '#' && c != '>' && c != '|' && c != '`'
  }

  /** The state after a line of one character. */
  function AfterChar(c: char): State {
    State("", c, 1, [c], c, true)
  }

  lemma {:induction false} PushChar(c: char, u: Unicode)
    requires Ordinary(c)
    ensures Output(FRESH, [c], u) == [c] && Next(FRESH, [c]) == AfterChar(c)
  {
    OneChar(c);
    Pieces("", [c]);
    hide Leading, Trailing, TrimSpace, Prefix, IsSpace, LastNonSpace, TrailingToken, LastTrimmedLine, Output, Next;
    assert "" + [c] == [c] && "" + "" == "";
    FreshPrefix("", [c], u);
    PushText(FRESH, [c], u);
  }

  lemma {:induction false} PlainLine(c: char, u: Unicode)
    requires Ordinary(c)
    ensures !LinePreservesFollowingBreak([c], u)
  {
    OneCharTrimmed(c);
    hide TrimSpace, IsSpace, OrderedFrom;
    NoListOfOne(c, u);
  }

  lemma {:induction false} NoListOfOne(c: char, u: Unicode)
    requires c != '.'
    ensures !OrderedFrom([c], 0, u)
  {
    assert [c][1..] == "" && !OrderedFrom("", 1, u);
  }

  lemma {:induction false} StopIsPlain(u: Unicode)
    requires Sane(u)
    ensures PreservedBreakPrefix(".", u).None? && FirstNonSpace(".") == '.' && StartsPunctuation('.')
  {
    TrimmedIsCore(".");
    hide TrimSpace;
    assert !u.isDigit('.') && !OrderedFrom(".", 0, u);
  }

  lemma {:induction false} BlankLines()
    ensures CountNewlines("\n \n") == 2 && HasHorizontalSpace("\n \n") && AllSpace("\n \n") && AllSpace(" ")
  {
    var gap := "\n \n";
    assert gap[1..] == " \n" && gap[1..][1..] == "\n" && gap[1..][1..][1..] == "";
    assert gap[1] == ' ' && IsSpace(gap[1]) && IsSpace('\n');
    hide IsSpace;
  }

  lemma {:induction false} StopCollapses(c: char, u: Unicode)
    requires Sane(u) && Ordinary(c)
    ensures Collapses(AfterChar(c), "\n \n", ".", u)
  {
    StopIsPlain(u);
    PlainLine(c, u);
    BlankLines();
    hide PreservedBreakPrefix, LinePreservesFollowingBreak, FirstNonSpace, IsSpace, CountNewlines, HasHorizontalSpace;
  }

  lemma {:induction false} PushStop(n: State, whitespace: string, u: Unicode)
    requires AllSpace(whitespace) && n.pending == ""
    ensures Output(n, whitespace + ".", u) == Prefix(n, whitespace, ".", u) + "."
  {
    Pieces(whitespace, ".");
    hide Prefix, TrimSpace, Leading;
    assert "" + whitespace == whitespace;
  }

  /** Blank lines with a blank among them, in front of a full stop: a blank the first time, nothing the second. */
  lemma {:induction false} CollapsingStream(u: Unicode)
    requires Sane(u)
    ensures Outputs(FRESH, ["a", "\n \n."], u) == ["a", " ."]
    ensures Outputs(FRESH, ["a", " ."], u) == ["a", "."]
  {
    assert Ordinary('a');
    hide *;
    CollapsingPushes('a', u);
    TwoOutputs("a", "\n \n.", u);
    TwoOutputs("a", " .", u);
  }

  lemma {:induction false} CollapsingPushes(c: char, u: Unicode)
    requires Sane(u) && Ordinary(c)
    ensures Output(FRESH, [c], u) == [c]
    ensures Output(Next(FRESH, [c]), "\n \n.", u) == " ." && Output(Next(FRESH, [c]), " .", u) == "."
  {
    hide *;
    PushChar(c, u);
    StopCollapses(c, u);
    StopReplayed(AfterChar(c), u);
    assert AfterChar(c).pending == "" by { NothingPending(c); }
    BlankLines();
    PushStop(AfterChar(c), "\n \n", u);
    PushStop(AfterChar(c), " ", u);
    assert "\n \n" + "." == "\n \n." && " " + "." == " ." && "" + "." == ".";
  }

  lemma {:induction false} NothingPending(c: char)
    ensures AfterChar(c).pending == ""
  {
  }

  lemma {:induction false} StopReplayed(n: State, u: Unicode)
    requires Sane(u) && Collapses(n, "\n \n", ".", u)
    ensures Prefix(n, "\n \n", ".", u) == " " && Prefix(n, " ", ".", u) == ""
  {
    assert Trimmed(".");
    hide *;
    PrefixReplayed(n, "\n \n", ".", u);
  }

  lemma {:induction false} TwoOutputs(a: string, b: string, u: Unicode)
    ensures Outputs(FRESH, [a, b], u) == [Output(FRESH, a, u), Output(Next(FRESH, a), b, u)]
  {
    hide Output, Next;
    assert [a, b][1..] == [b] && [b][1..] == [];
    assert Outputs(Next(FRESH, a), [b], u) == [Output(Next(FRESH, a), b, u)] + Outputs(Next(Next(FRESH, a), b), [], u);
  }

  /** A blank before an ordinary character stays behind text and is dropped at the start. */
  lemma {:induction false} PushBlank(c: char, d: char, u: Unicode)
    requires Ordinary(c) && Ordinary(d) && !StartsPunctuation(d)
    ensures Output(AfterChar(c), " " + [d], u) == " " + [d] && Output(FRESH, " " + [d], u) == [d]
  {
    OneChar(d);
    BlankLines();
    Pieces(" ", [d]);
    NewlineCounts();
    BlankKept(AfterChar(c), [d], u);
    FreshPrefix(" ", [d], u);
    hide Prefix, TrimSpace, Leading, IsSpace, CountNewlines, FirstNonSpace;
    assert "" + " " == " " && "" + [d] == [d];
  }

  lemma {:induction false} BlankKept(n: State, core: string, u: Unicode)
    requires n.emitted && FirstNonSpace(core) != NUL && !StartsPunctuation(FirstNonSpace(core))
    ensures Prefix(n, " ", core, u) == " "
  {
    NewlineCounts();
    hide CountNewlines, FirstNonSpace, StartsPunctuation;
  }
}
