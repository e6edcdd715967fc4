/** agent.go, normalizeAssistantTextContent: the text blocks of a stored assistant message. */
module AssistantContent {
  import opened Transcript
  import S = StreamText
  import Strings = Text

  datatype Folded = Folded(out: seq<Block>, state: S.State)

  /** Text joins the text block it follows; any other block starts the normaliser afresh. */
  function Add(f: Folded, b: Block, u: S.Unicode): Folded {
    if !b.Text? then Folded(f.out + [b], S.FRESH)
    else
      var text, next := S.Output(f.state, b.text, u), S.Next(f.state, b.text);
      if text == "" then Folded(f.out, next)
      else if f.out != [] && f.out[|f.out| - 1].Text? then
        Folded(f.out[..|f.out| - 1] + [Text(f.out[|f.out| - 1].text + text)], next)
      else Folded(f.out + [Text(text)], next)
  }

  function Fold(blocks: seq<Block>, u: S.Unicode): Folded {
    if blocks == [] then Folded([], S.FRESH) else Add(Fold(blocks[..|blocks| - 1], u), blocks[|blocks| - 1], u)
  }

  function Normalize(blocks: seq<Block>, u: S.Unicode): seq<Block> {
    Fold(blocks, u).out
  }

  /** normalizeAssistantTextContent */
  method NormalizeAssistantTextContent(blocks: seq<Block>, u: S.Unicode) returns (out: seq<Block>)
    ensures out == Normalize(blocks, u)
  {
    hide S.Output, S.Next;
    out := [];
    var stream := new S.Normalizer();
    for i := 0 to |blocks|
      invariant fresh(stream)
      invariant Fold(blocks[..i], u) == Folded(out, stream.Value())
    {
      assert blocks[..i + 1][..i] == blocks[..i];
      if !blocks[i].Text? {
        stream := new S.Normalizer();
        out := out + [blocks[i]];
        continue;
      }
      var text := stream.Push(blocks[i].text, u);
      if text == "" {
        continue;
      }
      if |out| > 0 && out[|out| - 1].Text? {
        out := out[..|out| - 1] + [Text(out[|out| - 1].text + text)];
        continue;
      }
      out := out + [Text(text)];
    }
    assert blocks[..|blocks|] == blocks;
  }

  // ----- The normal form -----

  predicate EndsInText(blocks: seq<Block>) {
    blocks != [] && blocks[|blocks| - 1].Text?
  }

  /** Text blocks are trimmed, not empty, and never neighbours. */
  predicate NormalForm(blocks: seq<Block>) {
    && (forall i :: 0 <= i < |blocks| && blocks[i].Text? ==> blocks[i].text != "" && S.Trimmed(blocks[i].text))
    && (forall i :: 0 <= i && i + 1 < |blocks| && blocks[i].Text? ==> !blocks[i + 1].Text?)
  }

  predicate GoodText(text: string) {
    text != "" && S.Trimmed(text)
  }

  lemma {:induction false} NormalSnoc(front: seq<Block>, b: Block)
    ensures NormalForm(front + [b]) <==>
            NormalForm(front) && (b.Text? ==> GoodText(b.text) && !EndsInText(front))
  {
    hide S.Trimmed;
    var all := front + [b];
    assert all[|front|] == b && forall i :: 0 <= i < |front| ==> all[i] == front[i];
    if NormalForm(all) && front != [] && b.Text? {
      assert all[|front| - 1 + 1].Text?;
    }
  }

  lemma {:induction false} GoodConcat(a: string, b: string)
    requires GoodText(a) && b != "" && !Strings.IsSpace(b[|b| - 1])
    ensures GoodText(a + b)
  {
    hide Strings.IsSpace;
    assert (a + b)[0] == a[0] && (a + b)[|a + b| - 1] == b[|b| - 1];
  }

  lemma {:induction false} AddKeepsNormalForm(f: Folded, b: Block, u: S.Unicode)
    requires NormalForm(f.out) && S.Valid(f.state) && (f.state.emitted ==> EndsInText(f.out))
    ensures var g := Add(f, b, u); NormalForm(g.out) && S.Valid(g.state) && (g.state.emitted ==> EndsInText(g.out))
  {
    hide S.Output, S.Next, Strings.IsSpace, NormalForm;
    if !b.Text? {
      NormalSnoc(f.out, b);
    } else {
      S.PushEffect(f.state, b.text, u);
      var text := S.Output(f.state, b.text, u);
      if text != "" {
        if EndsInText(f.out) {
          var front, last := f.out[..|f.out| - 1], f.out[|f.out| - 1];
          assert f.out == front + [last];
          NormalSnoc(front, last);
          GoodConcat(last.text, text);
          NormalSnoc(front, Text(last.text + text));
        } else {
          NormalSnoc(f.out, Text(text));
        }
      }
    }
  }

  lemma {:induction false} FoldIsNormal(blocks: seq<Block>, u: S.Unicode)
    ensures var f := Fold(blocks, u); NormalForm(f.out) && S.Valid(f.state) && (f.state.emitted ==> EndsInText(f.out))
  {
    hide Add, NormalForm;
    if blocks == [] {
      assert NormalForm([]) by { EmptyNormal(); }
    } else {
      FoldIsNormal(blocks[..|blocks| - 1], u);
      AddKeepsNormalForm(Fold(blocks[..|blocks| - 1], u), blocks[|blocks| - 1], u);
    }
  }

  lemma {:induction false} EmptyNormal()
    ensures NormalForm([])
  {
  }

  lemma {:induction false} AddGood(out: seq<Block>, text: string, u: S.Unicode)
    requires GoodText(text) && !EndsInText(out)
    ensures Add(Folded(out, S.FRESH), Text(text), u).out == out + [Text(text)]
  {
    hide S.Output, S.Next, S.Trimmed;
    S.TrimmedPasses(text, u);
  }

  lemma {:induction false} NormalIsFixed(blocks: seq<Block>, u: S.Unicode)
    requires NormalForm(blocks)
    ensures var f := Fold(blocks, u); f.out == blocks && (!EndsInText(blocks) ==> f.state == S.FRESH)
    decreases |blocks|
  {
    if blocks != [] {
      hide S.Output, S.Next, S.Trimmed, NormalForm;
      var front, b := blocks[..|blocks| - 1], blocks[|blocks| - 1];
      assert blocks == front + [b];
      NormalSnoc(front, b);
      NormalIsFixed(front, u);
      if b.Text? {
        AddGood(front, b.text, u);
      }
    }
  }

  /** Normalising twice is normalising once. */
  lemma {:induction false} NormalizeIdempotent(blocks: seq<Block>, u: S.Unicode)
    ensures Normalize(Normalize(blocks, u), u) == Normalize(blocks, u)
  {
    FoldIsNormal(blocks, u);
    NormalIsFixed(Normalize(blocks, u), u);
  }

  // ----- What is kept -----

  /** Every block that is not text, in order. */
  function NonText(blocks: seq<Block>): seq<Block> {
    if blocks == [] then []
    else NonText(blocks[..|blocks| - 1]) + (if blocks[|blocks| - 1].Text? then [] else [blocks[|blocks| - 1]])
  }

  /** PlainText of a message with these blocks */
  function Plain(blocks: seq<Block>): string {
    if blocks == [] then ""
    else Plain(blocks[..|blocks| - 1]) + (if blocks[|blocks| - 1].Text? then blocks[|blocks| - 1].text else "")
  }

  lemma {:induction false} Snoc(front: seq<Block>, b: Block)
    ensures NonText(front + [b]) == NonText(front) + (if b.Text? then [] else [b])
    ensures Plain(front + [b]) == Plain(front) + (if b.Text? then b.text else "")
  {
    assert (front + [b])[..|front|] == front;
  }

  lemma {:induction false} AddPlain(f: Folded, b: Block, u: S.Unicode)
    ensures NonText(Add(f, b, u).out) == NonText(f.out) + (if b.Text? then [] else [b])
    ensures Plain(Add(f, b, u).out) == Plain(f.out) + (if b.Text? then S.Output(f.state, b.text, u) else "")
  {
    hide S.Output, S.Next, Plain, NonText;
    if !b.Text? {
      Snoc(f.out, b);
    } else {
      var text := S.Output(f.state, b.text, u);
      if text == "" {
        assert Plain(f.out) + "" == Plain(f.out);
      } else if EndsInText(f.out) {
        var front, last := f.out[..|f.out| - 1], f.out[|f.out| - 1].text;
        assert f.out == front + [Text(last)];
        Snoc(front, Text(last));
        Snoc(front, Text(last + text));
        assert Plain(front) + (last + text) == (Plain(front) + last) + text;
      } else {
        Snoc(f.out, Text(text));
      }
    }
  }

  /** Blocks other than text survive in order, and the text loses and gains nothing but whitespace. */
  lemma {:induction false} NormalizeKeeps(blocks: seq<Block>, u: S.Unicode)
    ensures NonText(Normalize(blocks, u)) == NonText(blocks)
    ensures S.NonSpace(Plain(Normalize(blocks, u))) == S.NonSpace(Plain(blocks))
  {
    hide S.Output, S.Next, Add, S.NonSpace;
    if blocks != [] {
      var front, b := blocks[..|blocks| - 1], blocks[|blocks| - 1];
      var f := Fold(front, u);
      NormalizeKeeps(front, u);
      FoldIsNormal(front, u);
      AddPlain(f, b, u);
      if b.Text? {
        S.PushEffect(f.state, b.text, u);
        S.NonSpaceConcat(Plain(f.out), S.Output(f.state, b.text, u));
        S.NonSpaceConcat(Plain(front), b.text);
      } else {
        assert Plain(f.out) + "" == Plain(f.out) && Plain(front) + "" == Plain(front);
      }
    }
  }

  // ----- Streams of chunks -----

  function StateAfter(n: S.State, chunks: seq<string>): S.State {
    if chunks == [] then n else S.Next(StateAfter(n, chunks[..|chunks| - 1]), chunks[|chunks| - 1])
  }

  lemma {:induction false} OutputsSnoc(n: S.State, chunks: seq<string>, last: string, u: S.Unicode)
    ensures S.Flat(S.Outputs(n, chunks + [last], u)) ==
            S.Flat(S.Outputs(n, chunks, u)) + S.Output(StateAfter(n, chunks), last, u)
    decreases |chunks|
  {
    hide S.Output, S.Next;
    var all := chunks + [last];
    if chunks == [] {
      assert all[1..] == [] && S.Outputs(n, all, u) == [S.Output(n, last, u)];
      assert S.Outputs(n, all, u)[1..] == [];
      assert S.Output(n, last, u) + "" == "" + S.Output(n, last, u);
    } else {
      var n' := S.Next(n, chunks[0]);
      assert all[1..] == chunks[1..] + [last];
      OutputsSnoc(n', chunks[1..], last, u);
      StateAfterCons(n, chunks);
      var head, rest := S.Output(n, chunks[0], u), S.Outputs(n', chunks[1..], u);
      assert S.Outputs(n, chunks, u)[1..] == rest;
      assert S.Outputs(n, all, u)[1..] == S.Outputs(n', all[1..], u);
      var tail := S.Output(StateAfter(n, chunks), last, u);
      assert head + (S.Flat(rest) + tail) == (head + S.Flat(rest)) + tail;
    }
  }

  lemma {:induction false} StateAfterCons(n: S.State, chunks: seq<string>)
    requires chunks != []
    ensures StateAfter(n, chunks) == StateAfter(S.Next(n, chunks[0]), chunks[1..])
    decreases |chunks|
  {
    hide S.Next;
    var k := |chunks| - 1;
    if k > 0 {
      StateAfterCons(n, chunks[..k]);
      assert chunks[..k][1..] == chunks[1..][..k - 1];
    } else {
      assert chunks[..0] == [] && chunks[1..] == [];
    }
  }

  // ----- Adding one block -----

  lemma {:induction false} FoldSnoc(blocks: seq<Block>, b: Block, u: S.Unicode)
    ensures Fold(blocks + [b], u) == Add(Fold(blocks, u), b, u)
  {
    hide Add;
    assert (blocks + [b])[..|blocks|] == blocks;
  }

  lemma {:induction false} AddState(f: Folded, b: Block, u: S.Unicode)
    ensures Add(f, b, u).state == if b.Text? then S.Next(f.state, b.text) else S.FRESH
  {
    hide S.Output, S.Next;
  }
}
