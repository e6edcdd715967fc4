/**
  agent.go, assistantTextStreamNormalizer: which separator is left where whitespace parts two chunks of
  text, told by the texts themselves: the text on the left, the whitespace, the text on the right.
 */
module Separators {
  import opened Wrappers
  import opened Text
  import opened StreamText
  import C = AssistantContent

  // ----- Words and lines -----

  /** The last word of a text: it holds no space, and a space or nothing is in front of it. */
  lemma {:induction false} LastWord(s: string)
    ensures var w := TrailingToken(s);
            && |w| <= |s| && s[|s| - |w|..] == w && NoSpace(w)
            && (|w| < |s| ==> IsSpace(s[|s| - |w| - 1]))
  {
    hide IsSpace, TrailingToken;
    if s == "" {
      NoWord();
    } else {
      var front, c := s[..|s| - 1], s[|s| - 1];
      assert front + [c] == s;
      WordSnoc(front, c);
      LastWord(front);
      if !IsSpace(c) { LongerWord(front, c, TrailingToken(front)); }
    }
  }

  lemma {:induction false} NoWord()
    ensures TrailingToken("") == ""
  {
  }

  lemma {:induction false} WordSnoc(s: string, c: char)
    ensures TrailingToken(s + [c]) == if IsSpace(c) then "" else TrailingToken(s) + [c]
  {
    hide IsSpace;
    assert (s + [c])[..|s|] == s;
  }

  lemma {:induction false} LongerWord(s: string, c: char, w: string)
    requires |w| <= |s| && s[|s| - |w|..] == w && NoSpace(w) && !IsSpace(c)
    ensures var all, longer := s + [c], w + [c];
            && all[|all| - |longer|..] == longer && NoSpace(longer)
            && (|w| < |s| ==> all[|all| - |longer| - 1] == s[|s| - |w| - 1])
  {
    hide IsSpace;
  }

  /** The first word of a text that starts with one. */
  lemma {:induction false} FirstWord(s: string)
    requires s != "" && !IsSpace(s[0])
    ensures var w := LeadingToken(s);
            w != "" && w <= s && NoSpace(w) && (|w| < |s| ==> IsSpace(s[|w|]))
  {
    WordAt(s);
    assert LeadingToken(s) == TokenAt(s);
  }

  lemma {:induction false} WordAt(s: string)
    ensures var w := TokenAt(s);
            w <= s && NoSpace(w) && (|w| < |s| ==> IsSpace(s[|w|])) && (s != "" && !IsSpace(s[0]) ==> w != "")
  {
    hide IsSpace;
    if s != "" && !IsSpace(s[0]) {
      WordAt(s[1..]);
      var w := TokenAt(s[1..]);
      assert s == [s[0]] + s[1..];
      assert |w| < |s[1..]| ==> s[|w| + 1] == s[1..][|w|];
    }
  }

  /** The last line of a text without whitespace at its end. */
  lemma {:induction false} LastLine(s: string) returns (line: string)
    requires TrimRight(s) == s
    ensures |line| <= |s| && s[|s| - |line|..] == line && '\n' !in line && (|line| < |s| ==> s[|s| - |line| - 1] == '\n')
    ensures LastTrimmedLine(s) == TrimSpace(line)
  {
    hide TrimSpace, IsSpace;
    line := AfterLastNewline(s);
    BehindNewline(s);
    if s == "" {
      NoText();
    }
  }

  lemma {:induction false} BehindNewline(s: string)
    ensures var line := AfterLastNewline(s);
            |line| <= |s| && s[|s| - |line|..] == line && '\n' !in line && (|line| < |s| ==> s[|s| - |line| - 1] == '\n')
  {
    hide AfterLastNewline;
    NoLine();
    if s != "" {
      var front, c := s[..|s| - 1], s[|s| - 1];
      assert front + [c] == s;
      LineSnoc(front, c);
      BehindNewline(front);
      if c != '\n' { LongerLine(front, c, AfterLastNewline(front)); }
    }
  }

  lemma {:induction false} NoLine()
    ensures AfterLastNewline("") == ""
  {
  }

  lemma {:induction false} LineSnoc(s: string, c: char)
    ensures AfterLastNewline(s + [c]) == if c == '\n' then "" else AfterLastNewline(s) + [c]
  {
    assert (s + [c])[..|s|] == s;
  }

  lemma {:induction false} LongerLine(s: string, c: char, w: string)
    requires |w| <= |s| && s[|s| - |w|..] == w && '\n' !in w && c != '\n'
    ensures var all, longer := s + [c], w + [c];
            && all[|all| - |longer|..] == longer && '\n' !in longer
            && (|w| < |s| ==> all[|all| - |longer| - 1] == s[|s| - |w| - 1])
  {
  }

  lemma {:induction false} NewlinesCounted(s: string)
    ensures CountNewlines(s) == multiset(s)['\n']
  {
    if s != "" {
      NewlinesCounted(s[1..]);
      assert s == [s[0]] + s[1..];
      assert multiset(s) == multiset([s[0]]) + multiset(s[1..]);
    }
  }

  /** Digits and a full stop start the text. */
  predicate Numbered(s: string, u: Unicode) {
    exists k :: 0 < k < |s| && s[k] == '.' && DigitsTo(s, k, u)
  }

  predicate DigitsTo(s: string, k: nat, u: Unicode)
    requires k <= |s|
  {
    forall i :: 0 <= i < k ==> u.isDigit(s[i])
  }

  lemma {:induction false} OrderedFromIs(s: string, digits: nat, u: Unicode)
    requires !u.isDigit('.')
    ensures OrderedFrom(s, digits, u) <==> exists k: nat :: k < |s| && s[k] == '.' && digits + k > 0 && DigitsTo(s, k, u)
    decreases |s|
  {
    if s != "" && u.isDigit(s[0]) {
      var rest := s[1..];
      OrderedFromIs(rest, digits + 1, u);
      if OrderedFrom(s, digits, u) {
        var k: nat :| k < |rest| && rest[k] == '.' && digits + 1 + k > 0 && DigitsTo(rest, k, u);
        assert s[k + 1] == '.';
        forall i | 0 <= i < k + 1
          ensures u.isDigit(s[i])
        {
          assert i > 0 ==> s[i] == rest[i - 1];
        }
        assert DigitsTo(s, k + 1, u);
      }
      if k: nat :| k < |s| && s[k] == '.' && digits + k > 0 && DigitsTo(s, k, u) {
        assert k > 0;
        assert rest[k - 1] == '.';
        assert forall i :: 0 <= i < k - 1 ==> rest[i] == s[i + 1];
        assert DigitsTo(rest, k - 1, u);
      }
    } else if s != "" {
      assert forall k: nat :: 0 < k <= |s| ==> !DigitsTo(s, k, u);
      assert DigitsTo(s, 0, u);
    }
  }

  lemma {:induction false} NumberedIs(s: string, u: Unicode)
    requires !u.isDigit('.')
    ensures StartsOrderedList(s, u) <==> Numbered(s, u)
  {
    OrderedFromIs(s, 0, u);
    hide DigitsTo, OrderedFrom;
  }

  // ----- Blocks of Markdown -----

  predicate Bullet(s: string) {
    |s| >= 2 && (s[0] == '-' || s[0] == '*' || s[0] == '+') && s[1] == ' '
  }

  /** A fence, a heading, a quote or a table row. */
  predicate Framed(s: string) {
    && s != ""
    && (s[0] == '#' || s[0] == '>' || s[0] == '|' || (|s| >= 3 && s[0] == '`' && s[1] == '`' && s[2] == '`'))
  }

  predicate HasBlank(s: string) {
    ' ' in s || '\t' in s
  }

  /** The text opens a block: a frame, or a list item with text. */
  predicate OpensBlock(s: string, u: Unicode) {
    Framed(s) || Bullet(s) || (Numbered(s, u) && HasBlank(s) && !LoneSign(s))
  }

  predicate LoneSign(s: string) {
    s == "-" || s == "*" || s == "+"
  }

  /** The text is a list marker whose item is still to come. */
  predicate LoneMarker(s: string, u: Unicode) {
    !Framed(s) && !Bullet(s) && (LoneSign(s) || (Numbered(s, u) && !HasBlank(s)))
  }

  /** The last line of the text is a frame or a list item. */
  predicate EndsBlock(s: string, u: Unicode) {
    var line := LastTrimmedLine(s);
    Framed(line) || Bullet(line) || Numbered(line, u)
  }

  lemma {:induction false} PrefixesAre(s: string)
    ensures HasPrefix(s, "- ") || HasPrefix(s, "* ") || HasPrefix(s, "+ ") <==> Bullet(s)
    ensures HasPrefix(s, "```") || HasPrefix(s, "#") || HasPrefix(s, ">") || HasPrefix(s, "|") <==> Framed(s)
  {
    if |s| >= 2 { assert s[..2] == [s[0], s[1]]; }
    if |s| >= 3 { assert s[..3] == [s[0], s[1], s[2]]; }
    if |s| >= 1 { assert s[..1] == [s[0]]; }
  }

  lemma {:induction false} BlocksAre(s: string, u: Unicode)
    requires s != "" && Trimmed(s) && !u.isDigit('.')
    ensures var p := PreservedBreakPrefix(s, u);
            && (p == Some(BlankLine) <==> OpensBlock(s, u)) && (p == Some(Newline) <==> LoneMarker(s, u))
            && (p.None? || p == Some(BlankLine) || p == Some(Newline))
  {
    TrimmedIsCore(s);
    PrefixesAre(s);
    NumberedIs(s, u);
    hide TrimSpace, StartsOrderedList, Numbered, Framed, Bullet, HasPrefix, IsSpace;
  }

  lemma {:induction false} LinesAre(s: string, u: Unicode)
    requires !u.isDigit('.')
    ensures LinePreservesFollowingBreak(LastTrimmedLine(s), u) <==> EndsBlock(s, u)
  {
    var line := LastTrimmedLine(s);
    assert Trimmed(line) by { LastLineTrimmed(s); }
    hide LastTrimmedLine, Trimmed;
    TrimmedIsCore(line);
    PrefixesAre(line);
    NumberedIs(line, u);
    hide TrimSpace, StartsOrderedList, Numbered, Framed, Bullet, HasPrefix;
  }

  lemma {:induction false} TrimIsTrimmed(s: string)
    ensures Trimmed(TrimSpace(s))
  {
    CoreIsTrimmed(s);
  }

  lemma {:induction false} LastLineTrimmed(s: string)
    ensures Trimmed(LastTrimmedLine(s))
  {
    hide TrimSpace, IsSpace;
    TrimIsTrimmed(AfterLastNewline(TrimRight(s)));
  }

  // ----- Fragments -----

  predicate Sticky(c: char) {
    c == '/' || c == '_' || c == '-' || c == '#' || c == '`' || c == '*'
  }

  /** Three or more newlines between pieces of one word or path. */
  predicate Pieces3(left: string, right: string, u: Unicode)
    requires left != "" && right != ""
  {
    var last, first, p, t := left[|left| - 1], right[0], TrailingToken(left), LeadingToken(right);
    && IsWord(first, u)
    && if Sticky(last) then true
       else if last == '.' then !u.isUpper(first) && !(p != "" && u.isUpper(p[0]) && |p| > 3)
       else IsWord(last, u) && p != "" && t != "" && (|p| <= 3 || |t| <= 3)
  }

  predicate BothWords(left: string, right: string, u: Unicode)
    requires left != "" && right != ""
  {
    IsWord(left[|left| - 1], u) && IsWord(right[0], u) && !ParagraphStarter(right, u)
  }

  /** Two newlines between pieces of one word or path. */
  predicate Pieces2(left: string, right: string, u: Unicode)
    requires left != "" && right != ""
  {
    var last, first, p, t := left[|left| - 1], right[0], TrailingToken(left), LeadingToken(right);
    if first == '/' then 0 < |t| <= 3
    else
      || (p != "" && p[0] == '/' && u.isLower(first))
      || (Sticky(last) && IsWord(first, u))
      || (&& BothWords(left, right, u) && !WordJoinWord(right, u) && u.isLower(first) && p != "a" && p != "A"
          && ((|p| == 1 && last != 'I') || (0 < |p| <= 3 && 0 < |t| <= 3 && u.isLower(p[0]))))
  }

  /** Two newlines inside a sentence, or in front of a short new one. */
  predicate OneSentence(left: string, right: string, u: Unicode)
    requires left != "" && right != ""
  {
    var last, first := left[|left| - 1], right[0];
    && first != '/' && !Pieces2(left, right, u)
    && (|| (EndsSentence(last) && u.isUpper(first) && |LeadingToken(right)| <= 3)
        || (BothWords(left, right, u) && (WordJoinWord(right, u) || u.isLower(first))))
  }

  lemma {:induction false} StickyIs(c: char)
    ensures c in "/_-#`*" <==> Sticky(c)
    ensures c in "./_-#`*" <==> Sticky(c) || c == '.'
  {
  }

  /** Both sides are texts without whitespace around them, and end and start with a character that is not NUL. */
  predicate Seam(left: string, right: string) {
    && left != "" && right != "" && Trimmed(left) && Trimmed(right)
    && left[|left| - 1] != NUL && right[0] != NUL
  }

  lemma {:induction false} SeamWords(left: string, right: string)
    requires Seam(left, right)
    ensures TrailingToken(left) != "" && LeadingToken(right) != "" && FirstNonSpace(right) == right[0]
  {
    FirstWord(right);
    hide IsSpace, LeadingToken;
  }

  lemma {:induction false} JoinIs(left: string, right: string, u: Unicode)
    requires Seam(left, right)
    ensures var p := TrailingToken(left);
            p != "" && (ShouldJoin(left[|left| - 1], p[0], |p|, right, u) <==> Pieces3(left, right, u))
  {
    hide TrailingToken, LeadingToken, FirstNonSpace, IsWord, Trimmed;
    SeamWords(left, right);
    StickyIs(left[|left| - 1]);
  }

  lemma {:induction false} BlankIs(left: string, right: string, u: Unicode)
    requires Seam(left, right) && Sane(u)
    ensures var p := TrailingToken(left);
            && p != ""
            && var g := BlankSeparatedPrefix(left[|left| - 1], p[0], |p|, right, u);
            && (g == Some(Nothing) <==> Pieces2(left, right, u)) && (g == Some(Blank) <==> OneSentence(left, right, u))
  {
    hide TrailingToken, LeadingToken, FirstNonSpace, Trimmed, ParagraphStarter, WordJoinWord;
    SeamWords(left, right);
    BlankPrefixes(left[|left| - 1], TrailingToken(left)[0], |TrailingToken(left)|, right, u);
    StickyIs(left[|left| - 1]);
  }

  // ----- The separator -----

  /** Neither side has a block of Markdown at the seam. */
  predicate Prose(left: string, right: string, u: Unicode) {
    !OpensBlock(right, u) && !LoneMarker(right, u) && !EndsBlock(left, u)
  }

  /** A blank line stays. */
  predicate StaysParagraph(left: string, newlines: nat, horizontal: bool, right: string, u: Unicode)
    requires left != "" && right != ""
  {
    || OpensBlock(right, u)
    || (EndsBlock(left, u) && !LoneMarker(right, u))
    || (&& Prose(left, right, u) && newlines == 2 && !horizontal && !StartsPunctuation(right[0])
        && !Pieces2(left, right, u) && !OneSentence(left, right, u))
  }

  /** Nothing is left of blank lines. */
  predicate ClosesUp(left: string, newlines: nat, horizontal: bool, right: string, u: Unicode)
    requires left != "" && right != ""
  {
    && Prose(left, right, u) && !horizontal
    && (|| StartsPunctuation(right[0])
        || (newlines == 2 && Pieces2(left, right, u))
        || (newlines > 2 && Pieces3(left, right, u)))
  }

  /** What is left of the whitespace between two texts. */
  predicate Parted(left: string, gap: string, right: string, sep: string, u: Unicode)
    requires left != "" && right != ""
  {
    if gap == "" then sep == ""
    else if CountNewlines(gap) == 0 then sep == if StartsPunctuation(right[0]) then "" else gap
    else if CountNewlines(gap) == 1 then sep == if StartsPunctuation(right[0]) then "" else "\n"
    else
      && (sep == "" || sep == "\n" || sep == "\n\n" || sep == " ")
      && (sep == "\n" <==> LoneMarker(right, u))
      && (sep == "\n\n" <==> StaysParagraph(left, CountNewlines(gap), HasHorizontalSpace(gap), right, u))
      && (sep == "" <==> ClosesUp(left, CountNewlines(gap), HasHorizontalSpace(gap), right, u))
  }

  /** What the normaliser keeps of the text on the left. */
  function Recalled(left: string, pending: string): State
    requires TrailingToken(left) != "" && left != ""
  {
    State(pending, TrailingToken(left)[0], |TrailingToken(left)|, LastTrimmedLine(left), left[|left| - 1], true)
  }

  lemma {:induction false} NoDigitStop(u: Unicode)
    requires Sane(u)
    ensures !u.isDigit('.')
  {
    assert StartsPunctuation('.');
  }

  lemma {:induction false} PunctuationIsNoSlash(c: char)
    ensures StartsPunctuation(c) ==> c != '/'
  {
  }

  /** What the choice asks about the two texts. */
  lemma {:induction false} SeamFacts(left: string, right: string, u: Unicode)
    requires Seam(left, right) && Sane(u) && TrailingToken(left) != ""
    ensures var n, p := Recalled(left, ""), PreservedBreakPrefix(right, u);
            && (p == Some(BlankLine) <==> OpensBlock(right, u)) && (p == Some(Newline) <==> LoneMarker(right, u))
            && (p.None? || p == Some(BlankLine) || p == Some(Newline))
            && (LinePreservesFollowingBreak(n.lastLine, u) <==> EndsBlock(left, u))
            && FirstNonSpace(right) == right[0] != NUL && (StartsPunctuation(right[0]) ==> right[0] != '/')
  {
    hide TrailingToken, LeadingToken, FirstNonSpace, Trimmed, PreservedBreakPrefix, LinePreservesFollowingBreak,
      OpensBlock, LoneMarker, EndsBlock, StartsPunctuation, LastTrimmedLine, Sane;
    NoDigitStop(u);
    SeamWords(left, right);
    BlocksAre(right, u);
    LinesAre(left, u);
    PunctuationIsNoSlash(right[0]);
  }

  lemma {:induction false} FragmentFacts(left: string, right: string, u: Unicode)
    requires Seam(left, right) && Sane(u) && TrailingToken(left) != ""
    ensures var n := Recalled(left, "");
            var g := BlankSeparatedPrefix(n.lastRune, n.lastTokenFirst, n.lastTokenLength, right, u);
            && (ShouldJoin(n.lastRune, n.lastTokenFirst, n.lastTokenLength, right, u) <==> Pieces3(left, right, u))
            && (g == Some(Nothing) <==> Pieces2(left, right, u)) && (g == Some(Blank) <==> OneSentence(left, right, u))
            && (g.None? || g == Some(Nothing) || g == Some(Blank))
  {
    hide TrailingToken, FirstNonSpace, IsSpace, ShouldJoin, BlankSeparatedPrefix, Pieces2, Pieces3, OneSentence, LastTrimmedLine, Sane;
    JoinIs(left, right, u);
    BlankIs(left, right, u);
    BlankPrefixes(left[|left| - 1], TrailingToken(left)[0], |TrailingToken(left)|, right, u);
  }

  /** The choice for two or more newlines in front of or behind a block. */
  lemma {:induction false} BlockChoice(left: string, newlines: nat, horizontal: bool, right: string, u: Unicode)
    requires Seam(left, right) && Sane(u) && TrailingToken(left) != "" && newlines >= 2
    ensures var g := Choose(Recalled(left, ""), newlines, horizontal, right, u);
            && (OpensBlock(right, u) ==> g == BlankLine && !LoneMarker(right, u))
            && (LoneMarker(right, u) ==> g == Newline)
            && (EndsBlock(left, u) && !LoneMarker(right, u) ==> g == BlankLine)
  {
    hide Seam, Sane, TrailingToken, FirstNonSpace, PreservedBreakPrefix, LinePreservesFollowingBreak, ShouldJoin, BlankSeparatedPrefix,
      OpensBlock, LoneMarker, EndsBlock, Pieces2, Pieces3, OneSentence, StartsPunctuation, LastTrimmedLine, Recalled;
    SeamFacts(left, right, u);
  }

  /** The choice for two or more newlines between other texts. */
  lemma {:induction false} ProseChoice(left: string, newlines: nat, horizontal: bool, right: string, u: Unicode)
    requires Seam(left, right) && Sane(u) && TrailingToken(left) != "" && newlines >= 2 && Prose(left, right, u)
    ensures right != ""
    ensures var g := Choose(Recalled(left, ""), newlines, horizontal, right, u);
            if horizontal then g == Blank
            else if StartsPunctuation(right[0]) then g == Nothing
            else if newlines > 2 then g == (if Pieces3(left, right, u) then Nothing else Blank)
            else g == (if Pieces2(left, right, u) then Nothing else if OneSentence(left, right, u) then Blank else BlankLine)
  {
    hide Seam, Sane, TrailingToken, FirstNonSpace, PreservedBreakPrefix, LinePreservesFollowingBreak, ShouldJoin, BlankSeparatedPrefix,
      OpensBlock, LoneMarker, EndsBlock, Pieces2, Pieces3, OneSentence, StartsPunctuation, LastTrimmedLine, Recalled;
    SeamSides(left, right);
    SeamFacts(left, right, u);
    FragmentFacts(left, right, u);
  }

  lemma {:induction false} PiecesOrSentence(left: string, right: string, u: Unicode)
    requires left != "" && right != ""
    ensures !(Pieces2(left, right, u) && OneSentence(left, right, u))
  {
    hide Pieces2;
  }

  /** The choice for two or more newlines. */
  lemma {:induction false} ChoiceParts(left: string, newlines: nat, horizontal: bool, right: string, u: Unicode)
    requires Seam(left, right) && Sane(u) && TrailingToken(left) != "" && newlines >= 2
    ensures right != ""
    ensures var g := Choose(Recalled(left, ""), newlines, horizontal, right, u);
            && !g.AsIs? && (g.Newline? <==> LoneMarker(right, u))
            && (g.BlankLine? <==> StaysParagraph(left, newlines, horizontal, right, u))
            && (g.Nothing? <==> ClosesUp(left, newlines, horizontal, right, u))
  {
    hide Choose, Seam, Sane, TrailingToken, OpensBlock, LoneMarker, EndsBlock, Pieces2, Pieces3, OneSentence,
      StartsPunctuation, LastTrimmedLine;
    SeamSides(left, right);
    BlockChoice(left, newlines, horizontal, right, u);
    PiecesOrSentence(left, right, u);
    if Prose(left, right, u) {
      ProseChoice(left, newlines, horizontal, right, u);
    }
  }
  /** The choice for fewer. */
  lemma {:induction false} FewNewlines(left: string, newlines: nat, horizontal: bool, right: string, u: Unicode)
    requires Seam(left, right) && TrailingToken(left) != "" && newlines < 2
    ensures Choose(Recalled(left, ""), newlines, horizontal, right, u) ==
            if StartsPunctuation(right[0]) then Nothing else if newlines == 0 then AsIs else Newline
  {
    SeamWords(left, right);
    PunctuationIsNoSlash(right[0]);
    hide TrailingToken, LeadingToken, FirstNonSpace, Trimmed, StartsPunctuation, LastTrimmedLine;
  }

  lemma {:induction false} RenderedApart(g: Gap, gap: string)
    requires !g.AsIs?
    ensures var sep := Render(g, gap);
            && (sep == "" || sep == "\n" || sep == "\n\n" || sep == " ")
            && (sep == "\n" <==> g.Newline?) && (sep == "\n\n" <==> g.BlankLine?) && (sep == "" <==> g.Nothing?)
  {
    assert |"\n"| == 1 && "\n"[0] == '\n' && " "[0] == ' ' && |"\n\n"| == 2;
  }

  lemma {:induction false} PrefixParts(left: string, gap: string, right: string, u: Unicode)
    requires Seam(left, right) && Sane(u) && TrailingToken(left) != ""
    ensures Parted(left, gap, right, Prefix(Recalled(left, ""), gap, right, u), u)
  {
    hide Seam, Sane, TrailingToken, Choose, CountNewlines, HasHorizontalSpace, LoneMarker, StaysParagraph, ClosesUp,
      StartsPunctuation, LastTrimmedLine;
    assert left != "" && right != "" by { SeamSides(left, right); }
    var k, h := CountNewlines(gap), HasHorizontalSpace(gap);
    if k < 2 {
      FewNewlines(left, k, h, right, u);
    } else {
      ChoiceParts(left, k, h, right, u);
      RenderedApart(Choose(Recalled(left, ""), k, h, right, u), gap);
      hide Render;
    }
  }

  lemma {:induction false} SeamSides(left: string, right: string)
    requires Seam(left, right)
    ensures left != "" && right != ""
  {
  }

  // ----- Streams -----

  predicate AllBlank(chunks: seq<string>) {
    forall i :: 0 <= i < |chunks| ==> TrimSpace(chunks[i]) == ""
  }

  lemma {:induction false} RecalledNext(n: State, a: string)
    requires TrimSpace(a) != "" && TrimSpace(a)[|TrimSpace(a)| - 1] != NUL
    ensures TrailingToken(TrimSpace(a)) != "" && Next(n, a) == Recalled(TrimSpace(a), Trailing(a))
  {
    var core := TrimSpace(a);
    CoreIsTrimmed(a);
    assert a != "" by { NoText(); }
    hide TrimSpace, Trailing, IsSpace, LastTrimmedLine;
    assert LastNonSpace(core) == core[|core| - 1];
  }

  lemma {:induction false} BlanksPend(n: State, blanks: seq<string>)
    requires AllBlank(blanks)
    ensures C.StateAfter(n, blanks) == n.(pending := n.pending + Flat(blanks))
    decreases |blanks|
  {
    hide TrimSpace;
    if blanks == [] {
      assert n.pending + "" == n.pending;
    } else {
      C.StateAfterCons(n, blanks);
      var n' := Next(n, blanks[0]);
      assert n' == n.(pending := n.pending + blanks[0]) by { assert n.pending + "" == n.pending; }
      hide Next;
      BlanksPend(n', blanks[1..]);
      assert n.pending + blanks[0] + Flat(blanks[1..]) == n.pending + (blanks[0] + Flat(blanks[1..]));
    }
  }

  lemma {:induction false} BlanksSayNothing(n: State, blanks: seq<string>, u: Unicode)
    requires AllBlank(blanks)
    ensures Flat(Outputs(n, blanks, u)) == ""
    decreases |blanks|
  {
    hide TrimSpace, Next, Prefix;
    if blanks != [] {
      BlanksSayNothing(Next(n, blanks[0]), blanks[1..], u);
      assert Outputs(n, blanks, u)[1..] == Outputs(Next(n, blanks[0]), blanks[1..], u);
    }
  }

  /** Chunk b goes on behind chunk a, with only blank chunks between them. */
  predicate Adjoin(a: string, b: string) {
    Seam(TrimSpace(a), TrimSpace(b))
  }

  /** The whitespace between the texts of two chunks. */
  function GapOf(a: string, blanks: seq<string>, b: string): string {
    Trailing(a) + Flat(blanks) + Leading(b)
  }

  lemma {:induction false} StatesJoin(n: State, a: seq<string>, b: seq<string>)
    ensures C.StateAfter(n, a + b) == C.StateAfter(C.StateAfter(n, a), b)
    decreases |b|
  {
    hide Next;
    if b == [] {
      assert a + b == a;
    } else {
      StatesJoin(n, a, b[..|b| - 1]);
      assert (a + b)[..|a + b| - 1] == a + b[..|b| - 1];
    }
  }

  lemma {:induction false} StateAfterOne(n: State, a: string)
    ensures C.StateAfter(n, [a]) == Next(n, a)
  {
    hide Next;
    assert [a][..0] == [] && C.StateAfter(n, []) == n;
  }

  /** The state behind a chunk with text and blank chunks, whatever was before. */
  lemma {:induction false} StateAtSeam(earlier: seq<string>, a: string, blanks: seq<string>)
    requires TrimSpace(a) != "" && TrimSpace(a)[|TrimSpace(a)| - 1] != NUL && AllBlank(blanks)
    ensures TrailingToken(TrimSpace(a)) != ""
    ensures C.StateAfter(FRESH, earlier + [a] + blanks) == Recalled(TrimSpace(a), Trailing(a) + Flat(blanks))
  {
    hide Next, TrimSpace, Trailing, TrailingToken, C.StateAfter, LastTrimmedLine, AllBlank;
    var n := C.StateAfter(FRESH, earlier);
    StatesJoin(FRESH, earlier, [a]);
    StateAfterOne(n, a);
    RecalledNext(n, a);
    StatesJoin(FRESH, earlier + [a], blanks);
    BlanksPend(Next(n, a), blanks);
  }

  /** The text up to the seam. */
  lemma {:induction false} BlanksKeepText(chunks: seq<string>, blanks: seq<string>, u: Unicode)
    requires AllBlank(blanks)
    ensures Flat(Outputs(FRESH, chunks + blanks, u)) == Flat(Outputs(FRESH, chunks, u))
    decreases |blanks|
  {
    hide Next, Prefix, TrimSpace, C.StateAfter, Outputs, Flat;
    if blanks == [] {
      assert chunks + blanks == chunks;
    } else {
      var front, last := blanks[..|blanks| - 1], blanks[|blanks| - 1];
      BlanksKeepText(chunks, front, u);
      assert chunks + blanks == (chunks + front) + [last];
      C.OutputsSnoc(FRESH, chunks + front, last, u);
      assert Output(C.StateAfter(FRESH, chunks + front), last, u) == "";
      assert Flat(Outputs(FRESH, chunks + front, u)) + "" == Flat(Outputs(FRESH, chunks + front, u));
    }
  }

  /**
    Wherever whitespace parts two chunks of text, in whatever stream, the separator that is left is told
    by the two texts and the whitespace alone.
   */
  lemma {:induction false} SeamText(earlier: seq<string>, a: string, blanks: seq<string>, b: string, u: Unicode) returns (sep: string)
    requires Sane(u) && Adjoin(a, b) && AllBlank(blanks)
    ensures Flat(Outputs(FRESH, earlier + [a] + blanks + [b], u)) ==
            Flat(Outputs(FRESH, earlier + [a], u)) + (sep + TrimSpace(b))
    ensures TrimSpace(a) != "" && TrimSpace(b) != "" && Parted(TrimSpace(a), GapOf(a, blanks, b), TrimSpace(b), sep, u)
  {
    hide Sane, AllBlank, Outputs, Flat, C.StateAfter, TrimSpace, Prefix, Trailing, Leading, TrailingToken, LastTrimmedLine, Parted,
      Output, Next, Trimmed;
    var left, right, gap := TrimSpace(a), TrimSpace(b), GapOf(a, blanks, b);
    var chunks := earlier + [a] + blanks;
    StateAtSeam(earlier, a, blanks);
    PrefixParts(left, gap, right, u);
    C.OutputsSnoc(FRESH, chunks, b, u);
    BlanksKeepText(earlier + [a], blanks, u);
    PushText(C.StateAfter(FRESH, chunks), b, u);
    PrefixIgnoresPending(Recalled(left, Trailing(a) + Flat(blanks)), gap, right, u);
    sep := Prefix(Recalled(left, ""), gap, right, u);
  }

  // ----- Laws of the separator -----

  /** A sign of Markdown or of a path. */
  predicate Sign(c: char) {
    Sticky(c) || c == '>' || c == '|' || c == '+'
  }

  /** A letter that is no digit, sign or NUL. */
  predicate PlainLetter(c: char, u: Unicode) {
    u.isLetter(c) && !u.isDigit(c) && !Sign(c)
  }

  lemma {:induction false} PlainIsProse(s: string, u: Unicode)
    requires s != "" && PlainLetter(s[0], u) && Sane(u)
    ensures !OpensBlock(s, u) && !LoneMarker(s, u) && !StartsPunctuation(s[0]) && s[0] != '/'
  {
    hide HasBlank, StartsPunctuation;
    assert forall k: nat :: 0 < k <= |s| ==> !DigitsTo(s, k, u);
  }

  lemma {:induction false} StopIsNoWord(c: char, u: Unicode)
    requires Sane(u) && EndsSentence(c)
    ensures !IsWord(c, u) && !Sticky(c)
  {
    assert StartsPunctuation(c);
  }

  /** One newline stays one newline, except in front of punctuation, where it goes. */
  lemma {:induction false} NewlineStays(earlier: seq<string>, a: string, blanks: seq<string>, b: string, u: Unicode)
    requires Sane(u) && Adjoin(a, b) && AllBlank(blanks) && multiset(GapOf(a, blanks, b))['\n'] == 1
    ensures TrimSpace(b) != ""
    ensures Flat(Outputs(FRESH, earlier + [a] + blanks + [b], u)) ==
            Flat(Outputs(FRESH, earlier + [a], u)) + ((if StartsPunctuation(TrimSpace(b)[0]) then "" else "\n") + TrimSpace(b))
  {
    hide Sane, AllBlank, Outputs, Flat, TrimSpace, GapOf, StartsPunctuation, Adjoin, StaysParagraph, ClosesUp, LoneMarker;
    NewlinesCounted(GapOf(a, blanks, b));
    assert multiset("")['\n'] == 0;
    var sep := SeamText(earlier, a, blanks, b, u);
  }

  /** Without a newline the whitespace stays as it is, except in front of punctuation, where it goes. */
  lemma {:induction false} SpacesStay(earlier: seq<string>, a: string, blanks: seq<string>, b: string, u: Unicode)
    requires Sane(u) && Adjoin(a, b) && AllBlank(blanks) && '\n' !in GapOf(a, blanks, b)
    ensures TrimSpace(b) != ""
    ensures Flat(Outputs(FRESH, earlier + [a] + blanks + [b], u)) ==
            Flat(Outputs(FRESH, earlier + [a], u))
            + ((if StartsPunctuation(TrimSpace(b)[0]) then "" else GapOf(a, blanks, b)) + TrimSpace(b))
  {
    hide Sane, AllBlank, Outputs, Flat, TrimSpace, GapOf, StartsPunctuation, Adjoin, StaysParagraph, ClosesUp, LoneMarker;
    NewlinesCounted(GapOf(a, blanks, b));
    var sep := SeamText(earlier, a, blanks, b, u);
  }

  /** A new sentence that starts with a capitalised word of more than three letters. */
  predicate NewSentence(left: string, right: string, u: Unicode)
    requires left != "" && right != ""
  {
    && EndsSentence(left[|left| - 1]) && |LeadingToken(right)| > 3
    && PlainLetter(right[0], u) && u.isUpper(right[0]) && !u.isLower(right[0])
  }

  lemma {:induction false} NewSentenceStays(left: string, right: string, u: Unicode)
    requires Sane(u) && left != "" && right != "" && NewSentence(left, right, u)
    ensures StaysParagraph(left, 2, false, right, u)
  {
    hide Sane, LeadingToken, TrailingToken, OpensBlock, LoneMarker, EndsBlock, StartsPunctuation, EndsSentence, Sticky, IsWord,
      ParagraphStarter, WordJoinWord;
    PlainIsProse(right, u);
    StopIsNoWord(left[|left| - 1], u);
  }

  /** Two newlines between a sentence and a new one stay a blank line. */
  lemma {:induction false} ParagraphStays(earlier: seq<string>, a: string, blanks: seq<string>, b: string, u: Unicode)
    requires Sane(u) && Adjoin(a, b) && AllBlank(blanks) && TrimSpace(a) != "" && TrimSpace(b) != ""
    requires var gap := GapOf(a, blanks, b); multiset(gap)['\n'] == 2 && !HasHorizontalSpace(gap)
    requires NewSentence(TrimSpace(a), TrimSpace(b), u)
    ensures Flat(Outputs(FRESH, earlier + [a] + blanks + [b], u)) ==
            Flat(Outputs(FRESH, earlier + [a], u)) + ("\n\n" + TrimSpace(b))
  {
    hide Sane, AllBlank, Outputs, Flat, TrimSpace, GapOf, StartsPunctuation, Adjoin, StaysParagraph, ClosesUp, LoneMarker,
      NewSentence, HasHorizontalSpace;
    NewlinesCounted(GapOf(a, blanks, b));
    assert multiset("")['\n'] == 0;
    NewSentenceStays(TrimSpace(a), TrimSpace(b), u);
    var sep := SeamText(earlier, a, blanks, b, u);
  }

  /** Two words of more than three letters. */
  predicate LongWords(left: string, right: string, u: Unicode)
    requires left != "" && right != ""
  {
    && IsWord(left[|left| - 1], u) && !Sticky(left[|left| - 1]) && |TrailingToken(left)| > 3
    && PlainLetter(right[0], u) && |LeadingToken(right)| > 3
  }

  lemma {:induction false} LongWordsParted(left: string, newlines: nat, horizontal: bool, right: string, u: Unicode)
    requires Sane(u) && left != "" && right != "" && LongWords(left, right, u) && !EndsBlock(left, u) && newlines > 2
    ensures !LoneMarker(right, u) && !StaysParagraph(left, newlines, horizontal, right, u) && !ClosesUp(left, newlines, horizontal, right, u)
  {
    hide LeadingToken, TrailingToken, OpensBlock, LoneMarker, EndsBlock, Sticky;
    PlainIsProse(right, u);
  }

  /** Three or more newlines between two long words of a text become one blank. */
  lemma {:induction false} ManyNewlinesToBlank(earlier: seq<string>, a: string, blanks: seq<string>, b: string, u: Unicode)
    requires Sane(u) && Adjoin(a, b) && AllBlank(blanks) && TrimSpace(a) != "" && TrimSpace(b) != ""
    requires multiset(GapOf(a, blanks, b))['\n'] > 2
    requires LongWords(TrimSpace(a), TrimSpace(b), u) && !EndsBlock(TrimSpace(a), u)
    ensures Flat(Outputs(FRESH, earlier + [a] + blanks + [b], u)) ==
            Flat(Outputs(FRESH, earlier + [a], u)) + (" " + TrimSpace(b))
  {
    hide Sane, AllBlank, Outputs, Flat, TrimSpace, GapOf, StartsPunctuation, Adjoin, StaysParagraph, ClosesUp, LoneMarker,
      LongWords, HasHorizontalSpace, EndsBlock;
    var gap := GapOf(a, blanks, b);
    NewlinesCounted(gap);
    assert multiset("")['\n'] == 0;
    LongWordsParted(TrimSpace(a), CountNewlines(gap), HasHorizontalSpace(gap), TrimSpace(b), u);
    var sep := SeamText(earlier, a, blanks, b, u);
  }

  /** In front of a Markdown block, and behind one unless a list marker follows, a blank line stays. */
  lemma {:induction false} BlocksStayApart(earlier: seq<string>, a: string, blanks: seq<string>, b: string, u: Unicode)
    requires Sane(u) && Adjoin(a, b) && AllBlank(blanks) && TrimSpace(a) != "" && TrimSpace(b) != ""
    requires multiset(GapOf(a, blanks, b))['\n'] >= 2
    requires OpensBlock(TrimSpace(b), u) || (EndsBlock(TrimSpace(a), u) && !LoneMarker(TrimSpace(b), u))
    ensures Flat(Outputs(FRESH, earlier + [a] + blanks + [b], u)) ==
            Flat(Outputs(FRESH, earlier + [a], u)) + ("\n\n" + TrimSpace(b))
  {
    hide Sane, AllBlank, Outputs, Flat, TrimSpace, GapOf, StartsPunctuation, Adjoin, ClosesUp, LoneMarker,
      HasHorizontalSpace, EndsBlock, OpensBlock, Prose, Pieces2, OneSentence;
    NewlinesCounted(GapOf(a, blanks, b));
    assert multiset("")['\n'] == 0;
    var sep := SeamText(earlier, a, blanks, b, u);
  }

  // ----- Two texts -----

  lemma {:induction false} TwoTexts(left: string, gap: string, right: string, u: Unicode)
    requires left != "" && right != "" && Trimmed(left) && Trimmed(right) && AllSpace(gap)
    ensures TrimSpace(left) == left && TrimSpace(gap + right) == right && GapOf(left, [], gap + right) == gap
    ensures Flat(Outputs(FRESH, [left], u)) == left
    ensures [] + [left] == [left] && [left] + [] + [gap + right] == [left, gap + right]
  {
    hide TrimSpace, Leading, Trailing, IsSpace, Output, Next;
    Pieces("", left);
    Pieces(gap, right);
    assert "" + left == left && "" + Flat([]) + gap == gap;
    TrimmedPasses(left, u);
    assert Outputs(FRESH, [left], u)[1..] == [] && left + "" == left;
  }

  /** A paragraph behind a sentence. */
  lemma {:induction false} NextParagraph(left: string, gap: string, right: string, u: Unicode)
    requires Sane(u) && Seam(left, right) && NewSentence(left, right, u) && gap == "\n\n"
    ensures Flat(Outputs(FRESH, [left, gap + right], u)) == left + (gap + right)
  {
    hide Sane, Outputs, Flat, TrimSpace, GapOf, NewSentence, LeadingToken, HasHorizontalSpace, CountNewlines, TrailingToken;
    assert AllSpace(gap) && !HasHorizontalSpace(gap) && multiset(gap)['\n'] == 2 by { TwoNewlines(gap); }
    TwoTexts(left, gap, right, u);
    ParagraphStays([], left, [], gap + right, u);
  }

  lemma {:induction false} TwoNewlines(gap: string)
    requires gap == "\n\n"
    ensures AllSpace(gap) && !HasHorizontalSpace(gap) && multiset(gap)['\n'] == 2
  {
    NewlineCounts();
    NewlinesCounted(gap);
    SpaceLiterals();
    hide IsSpace, CountNewlines, HasHorizontalSpace;
  }
}
