// What the windows of a document are made of, and where the headings of its chunks
// come from.
module WindowTexts {
  import opened Text
  import opened Markdown
  import opened MarkdownRoundTrip
  import opened Headings
  import opened LargeBlock
  import opened Ranges
  import opened Windows
  import opened Grouping
  import opened Chunks
  import opened ChunkFacts
  import WindowCover

  // The planner counts the tokens of each block.
  lemma {:induction false} SizesAreTokens(c: Chunker, blocks: seq<Block>, k: nat)
    requires k < |blocks|
    ensures Sizes(c, blocks)[k] == |c.encode(blocks[k].text)|
  {
  }

  // The window of a run has the texts of its blocks, a blank line between them, and
  // the headings of its last block.
  lemma {:induction false} WindowOfRun(c: Chunker, blocks: seq<Block>, lo: nat, first: nat, hi: nat)
    requires lo < hi <= |blocks| && forall k :: 0 <= k < |blocks| ==> IsPlain(blocks[k].text)
    ensures var ws := WindowsOf(c, blocks, Run(lo, first, hi));
            && |ws| == 1 && ws[0].headings == blocks[hi - 1].headings
            && ws[0].text == Join(Texts(blocks)[lo..hi], "\n\n")
  {
    RunIsPlain(blocks[lo..hi]);
    assert Texts(blocks[lo..hi]) == Texts(blocks)[lo..hi];
  }

  // The windows of a large block are its slices, decoded and stripped, under its
  // headings.
  lemma {:induction false} WindowsOfLarge(c: Chunker, blocks: seq<Block>, k: nat, slices: seq<seq<int>>)
    returns (at: seq<nat>)
    requires k < |blocks| && slices == Slices(c.encode(blocks[k].text), Step(c), c.chunkTokens)
    ensures var ws := WindowsOf(c, blocks, Large(k));
            && |ws| == |at|
            && forall j :: 0 <= j < |at| ==>
                 at[j] < |slices| && ws[j] == Window(Strip(c.decode(slices[at[j]])), blocks[k].headings)
    ensures forall i: nat :: i in at <==> Remains(c, slices, i)
    ensures forall i, j :: 0 <= i < j < |at| ==> at[i] < at[j]
  {
    at := PiecesAreSlices(c, blocks[k], slices);
    hide Strip, Remains, LargeBlockPieces;
  }

  lemma {:induction false} OneRendered(c: Chunker, blocks: seq<Block>, span: Span)
    ensures Rendered(c, blocks, [span]) == WindowsOf(c, blocks, span)
  {
    NothingRendered(c, blocks);
    RenderedSnoc(c, blocks, [], span);
    assert [] + [span] == [span];
    hide WindowsOf, Rendered;
  }

  lemma {:induction false} NothingRendered(c: Chunker, blocks: seq<Block>)
    ensures Rendered(c, blocks, []) == []
  {
  }

  // The windows of a plan are those of its spans, one after the other.
  lemma {:induction false} RenderedConcat(c: Chunker, blocks: seq<Block>, a: seq<Span>, b: seq<Span>)
    ensures Rendered(c, blocks, a + b) == Rendered(c, blocks, a) + Rendered(c, blocks, b)
  {
    hide WindowsOf, Rendered;
    if b == [] {
      assert a + b == a;
      NothingRendered(c, blocks);
    } else {
      var init, last := b[..|b| - 1], b[|b| - 1];
      RenderedConcat(c, blocks, a, init);
      RenderedSnoc(c, blocks, a + init, last);
      RenderedSnoc(c, blocks, init, last);
      assert a + b == (a + init) + [last] && init + [last] == b;
    }
  }

  // The block whose headings the windows of a span carry.
  function LastBlock(span: Span): int {
    match span case Run(_, _, hi) => hi - 1 case Large(k) => k
  }

  lemma {:induction false} SpanHeadings(c: Chunker, blocks: seq<Block>, span: Span, i: nat)
    requires i < |WindowsOf(c, blocks, span)|
    ensures 0 <= LastBlock(span) < |blocks|
    ensures WindowsOf(c, blocks, span)[i].headings == blocks[LastBlock(span)].headings
  {
    match span
    case Run(lo, _, hi) =>
    case Large(k) =>
      var slices := Slices(c.encode(blocks[k].text), Step(c), c.chunkTokens);
      var at := WindowsOfLarge(c, blocks, k, slices);
      hide Slices, LargeBlockPieces;
  }

  // Every window is one of a span's, and carries the headings of that span's last block.
  lemma {:induction false} WindowIsOfSpan(c: Chunker, blocks: seq<Block>, plan: seq<Span>, j: nat)
    returns (s: nat, i: nat)
    requires j < |Rendered(c, blocks, plan)|
    ensures s < |plan| && i < |WindowsOf(c, blocks, plan[s])|
    ensures j == |Rendered(c, blocks, plan[..s])| + i
    ensures Rendered(c, blocks, plan)[j] == WindowsOf(c, blocks, plan[s])[i]
  {
    hide WindowsOf;
    if plan == [] {
      assert false;
    } else {
      var init, last := plan[..|plan| - 1], plan[|plan| - 1];
      RenderedSnoc(c, blocks, init, last);
      assert init + [last] == plan;
      if j < |Rendered(c, blocks, init)| {
        s, i := WindowIsOfSpan(c, blocks, init, j);
        assert init[..s] == plan[..s];
      } else {
        s, i := |plan| - 1, j - |Rendered(c, blocks, init)|;
      }
    }
  }

  // The headings of a chunk are those of a block of the document, the last one of the
  // span of the chunk's first window; and in a well-nested document they are the chain
  // of headings that enclose the place where that block ends.
  lemma {:induction false} ChunkHeadings(c: Chunker, markdown: string, k: nat) returns (s: nat, n: nat)
    requires CountsText(c) && k < |ChunksOfDocument(c, markdown)|
    ensures var blocks := SplitBlocks(markdown);
            var plan := Plan(Sizes(c, blocks), c.chunkTokens, c.overlapTokens);
            && s < |plan| && 0 <= LastBlock(plan[s]) < |blocks|
            && ChunksOfDocument(c, markdown)[k].headings == blocks[LastBlock(plan[s])].headings
            && EmittedAfter(Lines(markdown), LastBlock(plan[s]), n, blocks[LastBlock(plan[s])])
    ensures WellNested(HeadingsIn(Lines(markdown), |Lines(markdown)|)) ==>
      ChunksOfDocument(c, markdown)[k].headings == Chain(HeadingsIn(Lines(markdown), n), ANY_LEVEL)
  {
    var blocks, ws := SplitBlocks(markdown), WindowsOfDocument(c, markdown);
    var plan := Plan(Sizes(c, blocks), c.chunkTokens, c.overlapTokens);
    DocumentIsChunked(c, markdown);
    var cuts := Cuts(Openings(c, ws), |ws|);
    ChunkIsGroup(c, ws, ChunksOfDocument(c, markdown), k, cuts);
    var i;
    s, i := WindowIsOfSpan(c, blocks, plan, cuts[k]);
    SpanHeadings(c, blocks, plan[s], i);
    n := BlockHeadings(markdown, LastBlock(plan[s]));
    hide *;
  }
}
