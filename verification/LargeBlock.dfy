// split_large_block of chunking.py: a block over the limit is cut into slices of
// its token sequence.
module LargeBlock {
  import opened Text
  import opened Markdown
  import opened Ranges

  // The settings of a MarkdownChunker, its encoding, and hash_text.
  datatype Chunker = Chunker(
    chunkTokens: nat, overlapTokens: int, minChunkTokens: int,
    encode: string -> seq<int>, decode: seq<int> -> string, hash: string -> string)

  function Step(c: Chunker): (step: nat)
    ensures step >= 1
  {
    if c.chunkTokens - c.overlapTokens > 1 then c.chunkTokens - c.overlapTokens else 1
  }

  function Slices(tokens: seq<int>, step: nat, chunk: nat): (slices: seq<seq<int>>)
    requires step >= 1
    ensures |slices| == Count(|tokens|, step)
    ensures forall i {:trigger slices[i]} :: 0 <= i < |slices| ==> slices[i] == Slice(tokens, Start(i, step), chunk)
  {
    seq(Count(|tokens|, step), i requires 0 <= i => Slice(tokens, Start(i, step), chunk))
  }

  // The first n slices decoded and stripped; one with nothing left is dropped.
  function Decoded(c: Chunker, block: Block, n: nat): seq<Block> {
    if n == 0 then []
    else
      var piece := Strip(c.decode(Slice(c.encode(block.text), Start(n - 1, Step(c)), c.chunkTokens)));
      Decoded(c, block, n - 1) + if piece != [] then [Block(piece, block.headings)] else []
  }

  function LargeBlockPieces(c: Chunker, block: Block): seq<Block> {
    Decoded(c, block, Count(|c.encode(block.text)|, Step(c)))
  }

  method SplitLargeBlock(c: Chunker, block: Block) returns (out: seq<Block>)
    ensures out == LargeBlockPieces(c, block)
  {
    var tokens, step := c.encode(block.text), Step(c);
    out := [];
    var start := 0;
    ghost var n := 0;
    while start < |tokens|
      invariant start == Start(n, step)
      invariant n + Count(Minus(|tokens|, start), step) == Count(|tokens|, step)
      invariant out == Decoded(c, block, n)
    {
      var piece := Strip(c.decode(Slice(tokens, start, c.chunkTokens)));
      if piece != [] {
        out := out + [Block(piece, block.headings)];
      }
      start, n := start + step, n + 1;
    }
  }

  // The first `step` tokens of a slice.
  function Head(slice: seq<int>, step: nat): seq<int> {
    slice[..UpTo(step, |slice|)]
  }

  // The heads of the first n slices, one after another.
  function Heads(slices: seq<seq<int>>, step: nat, n: nat): seq<int>
    requires n <= |slices|
  {
    if n == 0 then [] else Heads(slices, step, n - 1) + Head(slices[n - 1], step)
  }

  lemma {:induction false} HeadOfSlice(tokens: seq<int>, start: nat, step: nat, chunk: nat)
    requires step <= chunk && start < |tokens|
    ensures tokens[..start] + Head(Slice(tokens, start, chunk), step) == tokens[..UpTo(start + step, |tokens|)]
  {
  }

  ghost predicate IsSlice(tokens: seq<int>, slice: seq<int>, i: nat, step: nat, chunk: nat) {
    Start(i, step) < |tokens| && slice == Slice(tokens, Start(i, step), chunk)
  }

  lemma {:induction false} HeadsCover(tokens: seq<int>, slices: seq<seq<int>>, step: nat, chunk: nat, n: nat)
    requires 1 <= step <= chunk && n <= |slices|
    requires forall i :: 0 <= i < n ==> IsSlice(tokens, slices[i], i, step, chunk)
    ensures Heads(slices, step, n) == tokens[..UpTo(Start(n, step), |tokens|)]
  {
    if n > 0 {
      HeadsCover(tokens, slices, step, chunk, n - 1);
      assert IsSlice(tokens, slices[n - 1], n - 1, step, chunk);
      HeadOfSlice(tokens, Start(n - 1, step), step, chunk);
    }
  }

  ghost predicate SharesOverlap(earlier: seq<int>, later: seq<int>, step: nat, overlap: nat) {
    var shared := if overlap < |later| then overlap else |later|;
    |earlier| == step + shared && earlier[step..] == later[..shared]
  }

  // Slicing a large block, with an overlap smaller than the limit: the least
  // number of slices that reach the end, and the heads are the original tokens.
  lemma {:induction false} LargeBlockCovered(c: Chunker, tokens: seq<int>, slices: seq<seq<int>>)
    requires 0 <= c.overlapTokens < c.chunkTokens && slices == Slices(tokens, Step(c), c.chunkTokens)
    ensures |tokens| <= |slices| * Step(c) < |tokens| + Step(c)
    ensures Heads(slices, Step(c), |slices|) == tokens
  {
    StartsInside(|tokens|, Step(c));
    forall i | 0 <= i < |slices|
      ensures IsSlice(tokens, slices[i], i, Step(c), c.chunkTokens)
    {
      assert Inside(i, Step(c), |tokens|);
    }
    HeadsCover(tokens, slices, Step(c), c.chunkTokens, |slices|);
    assert tokens[..|tokens|] == tokens;
  }

  // No slice is empty or longer than the limit, and neighbours share exactly the
  // overlap, or all of the later slice when that is shorter.
  lemma {:induction false} LargeBlockOverlaps(c: Chunker, tokens: seq<int>, slices: seq<seq<int>>, i: nat)
    requires 0 <= c.overlapTokens < c.chunkTokens && slices == Slices(tokens, Step(c), c.chunkTokens)
    requires i < |slices|
    ensures 1 <= |slices[i]| <= c.chunkTokens
    ensures i > 0 ==> SharesOverlap(slices[i - 1], slices[i], Step(c), c.overlapTokens)
  {
    StartsInside(|tokens|, Step(c));
    assert Inside(i, Step(c), |tokens|);
    if i > 0 {
      NeighboursShare(tokens, Start(i - 1, Step(c)), Step(c), c.chunkTokens);
    }
  }

  lemma {:induction false} NeighboursShare(tokens: seq<int>, start: nat, step: nat, chunk: nat)
    requires step <= chunk && start + step < |tokens|
    ensures SharesOverlap(Slice(tokens, start, chunk), Slice(tokens, start + step, chunk), step, chunk - step)
  {
  }

  // The pieces are the slices that have something left when decoded and stripped, each
  // at its place, under the block's headings.
  ghost predicate FromSlices(c: Chunker, block: Block, slices: seq<seq<int>>, at: seq<nat>, pieces: seq<Block>) {
    && |at| == |pieces|
    && (forall j :: 0 <= j < |at| ==>
          at[j] < |slices| && pieces[j] == Block(Strip(c.decode(slices[at[j]])), block.headings))
    && (forall i, j :: 0 <= i < j < |at| ==> at[i] < at[j])
  }

  ghost predicate Remains(c: Chunker, slices: seq<seq<int>>, i: nat) {
    i < |slices| && !IsBlank(c.decode(slices[i]))
  }

  // The pieces of a block come from exactly the slices of its tokens that do not decode
  // to whitespace alone, in order.
  lemma {:induction false} PiecesAreSlices(c: Chunker, block: Block, slices: seq<seq<int>>) returns (at: seq<nat>)
    requires slices == Slices(c.encode(block.text), Step(c), c.chunkTokens)
    ensures FromSlices(c, block, slices, at, LargeBlockPieces(c, block))
    ensures forall i: nat :: i in at <==> Remains(c, slices, i)
  {
    at := DecodedAreSlices(c, block, slices, |slices|);
  }

  lemma {:induction false} DecodedAreSlices(c: Chunker, block: Block, slices: seq<seq<int>>, n: nat)
    returns (at: seq<nat>)
    requires slices == Slices(c.encode(block.text), Step(c), c.chunkTokens) && n <= |slices|
    ensures FromSlices(c, block, slices, at, Decoded(c, block, n))
    ensures forall i: nat :: i in at <==> i < n && Remains(c, slices, i)
    ensures forall k :: 0 <= k < |at| ==> at[k] < n
  {
    hide Strip, Remains, Slices;
    if n == 0 {
      at := [];
    } else {
      var before := DecodedAreSlices(c, block, slices, n - 1);
      DecodedStep(c, block, slices, n);
      hide Decoded;
      at := before;
      if Remains(c, slices, n - 1) {
        FromMore(c, block, slices, before, Decoded(c, block, n - 1), n - 1);
        at := before + [n - 1];
        assert forall i: nat :: i in at <==> i in before || i == n - 1;
      }
    }
  }

  lemma {:induction false} DecodedStep(c: Chunker, block: Block, slices: seq<seq<int>>, n: nat)
    requires slices == Slices(c.encode(block.text), Step(c), c.chunkTokens) && 0 < n <= |slices|
    ensures Decoded(c, block, n) == Decoded(c, block, n - 1)
              + if Remains(c, slices, n - 1) then [Block(Strip(c.decode(slices[n - 1])), block.headings)] else []
  {
    StripFacts(c.decode(slices[n - 1]));
    hide Strip, IsBlank;
  }

  lemma {:induction false} FromMore(c: Chunker, block: Block, slices: seq<seq<int>>, at: seq<nat>, pieces: seq<Block>,
                                    i: nat)
    requires FromSlices(c, block, slices, at, pieces) && i < |slices|
    requires forall k :: 0 <= k < |at| ==> at[k] < i
    ensures FromSlices(c, block, slices, at + [i], pieces + [Block(Strip(c.decode(slices[i])), block.headings)])
  {
    hide Strip;
  }

  // A decoder that undoes the encoder and works token by token.
  ghost predicate DecodesInPieces(c: Chunker) {
    && (forall text :: c.decode(c.encode(text)) == text)
    && (forall a, b :: c.decode(a + b) == c.decode(a) + c.decode(b))
  }

  // The decoded heads of the slices, one after another.
  function DecodedHeads(c: Chunker, slices: seq<seq<int>>, n: nat): string
    requires n <= |slices|
  {
    if n == 0 then [] else DecodedHeads(c, slices, n - 1) + c.decode(Head(slices[n - 1], Step(c)))
  }

  // With such a decoder they are the text of the block: nothing of it is missed.
  lemma {:induction false} HeadsDecode(c: Chunker, block: Block, slices: seq<seq<int>>)
    requires DecodesInPieces(c) && 0 <= c.overlapTokens < c.chunkTokens
    requires slices == Slices(c.encode(block.text), Step(c), c.chunkTokens)
    ensures DecodedHeads(c, slices, |slices|) == block.text
  {
    LargeBlockCovered(c, c.encode(block.text), slices);
    DecodedHeadsAre(c, slices, |slices|);
  }

  lemma {:induction false} DecodedHeadsAre(c: Chunker, slices: seq<seq<int>>, n: nat)
    requires DecodesInPieces(c) && n <= |slices|
    ensures DecodedHeads(c, slices, n) == c.decode(Heads(slices, Step(c), n))
  {
    hide Head;
    if n == 0 {
      NothingDecodes(c);
    } else {
      DecodedHeadsAre(c, slices, n - 1);
    }
  }

  lemma {:induction false} NothingDecodes(c: Chunker)
    requires DecodesInPieces(c)
    ensures c.decode([]) == []
  {
    var none: seq<int> := [];
    assert none + none == none;
    assert c.decode(none) == c.decode(none) + c.decode(none);
  }
}
