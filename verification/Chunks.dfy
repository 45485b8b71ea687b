// to_chunks and MarkdownChunker.split of chunking.py: windows become numbered
// chunks, and windows below the minimum join the chunk before them.
module Chunks {
  import opened Wrappers
  import opened Text
  import opened LargeBlock
  import opened Windows
  import opened Grouping

  datatype Kind = Content | DocumentSummary | SectionSummary

  datatype Chunk = Chunk(
    index: nat, text: string, tokenCount: nat, startToken: nat, endToken: nat, headings: seq<string>,
    contentHash: string, kind: Kind, sourceStart: Option<int>, sourceEnd: Option<int>)

  // Every chunk's index is its position.
  ghost predicate Positional(chunks: seq<Chunk>) {
    forall i :: 0 <= i < |chunks| ==> chunks[i].index == i
  }

  // `part in s` for strings.
  predicate OccursAt(part: string, s: string, i: nat) {
    i + |part| <= |s| && s[i..i + |part|] == part
  }

  predicate Occurs(part: string, s: string) {
    exists i :: 0 <= i <= |s| && OccursAt(part, s, i)
  }

  function Missing(headings: seq<string>, text: string): seq<string> {
    if headings == [] then []
    else (if Occurs(headings[0], text) then [] else [headings[0]]) + Missing(headings[1..], text)
  }

  const CONTEXT_CHARS := 300

  function WithHeadingContext(text: string, headings: seq<string>): string {
    var missing := Missing(headings, if |text| <= CONTEXT_CHARS then text else text[..CONTEXT_CHARS]);
    if missing == [] then text else "Context: " + Join(missing, " > ") + "\n\n" + text
  }

  // The text and the count that to_chunks works with.
  function Contextual(w: Window): string {
    WithHeadingContext(Strip(w.text), w.headings)
  }

  function WindowTokens(c: Chunker, w: Window): nat {
    CountTokens(c, Contextual(w))
  }

  function Advance(c: Chunker, count: nat): (advance: nat)
    ensures advance >= 1
  {
    if count - c.overlapTokens > 1 then count - c.overlapTokens else 1
  }

  // The token offset of window k.
  function Offset(c: Chunker, ws: seq<Window>, k: nat): nat
    requires k <= |ws|
  {
    if k == 0 then 0 else Offset(c, ws, k - 1) + Advance(c, WindowTokens(c, ws[k - 1]))
  }

  // Window i opens a chunk of its own.
  predicate Opens(c: Chunker, ws: seq<Window>, i: nat)
    requires i < |ws|
  {
    i == 0 || WindowTokens(c, ws[i]) >= c.minChunkTokens
  }

  // Which windows open a chunk.
  function Openings(c: Chunker, ws: seq<Window>): (opens: seq<bool>)
    ensures |opens| == |ws|
    ensures forall i :: 0 <= i < |ws| ==> opens[i] == Opens(c, ws, i)
  {
    seq(|ws|, i requires 0 <= i < |ws| => Opens(c, ws, i))
  }

  function GroupText(ws: seq<Window>, a: nat, b: nat): string
    requires a < b <= |ws|
  {
    if b == a + 1 then Contextual(ws[a]) else Strip(GroupText(ws, a, b - 1) + "\n\n" + Contextual(ws[b - 1]))
  }

  function ChunkOf(c: Chunker, ws: seq<Window>, a: nat, b: nat, index: nat): Chunk
    requires a < b <= |ws|
  {
    var text := GroupText(ws, a, b);
    Chunk(index, text, CountTokens(c, text), Offset(c, ws, a), Offset(c, ws, b - 1) + WindowTokens(c, ws[b - 1]),
          ws[a].headings, c.hash(text), Content, None, None)
  }

  function ChunksOf(c: Chunker, ws: seq<Window>, cuts: seq<nat>, k: nat): (chunks: seq<Chunk>)
    requires k <= |ws| && Groups(cuts, k)
    ensures |chunks| == |cuts|
    ensures forall j :: 0 <= j < |cuts| ==> chunks[j] == ChunkOf(c, ws, cuts[j], CutAfter(cuts, j, k), j)
  {
    seq(|cuts|, j requires 0 <= j < |cuts| => ChunkOf(c, ws, cuts[j], CutAfter(cuts, j, k), j))
  }

  // Appending window k as a chunk of its own, and merging it into the last chunk.
  lemma {:induction false} Opening(c: Chunker, ws: seq<Window>, cuts: seq<nat>, k: nat)
    requires k < |ws| && Groups(cuts, k)
    ensures Groups(cuts + [k], k + 1)
    ensures ChunksOf(c, ws, cuts + [k], k + 1) == ChunksOf(c, ws, cuts, k) + [ChunkOf(c, ws, k, k + 1, |cuts|)]
  {
    hide ChunkOf;
    GroupsSnoc(cuts, k);
  }

  lemma {:induction false} Merging(c: Chunker, ws: seq<Window>, cuts: seq<nat>, k: nat)
    requires k < |ws| && Groups(cuts, k) && cuts != []
    ensures Groups(cuts, k + 1) && cuts[|cuts| - 1] < k
    ensures ChunksOf(c, ws, cuts, k)[|cuts| - 1] == ChunkOf(c, ws, cuts[|cuts| - 1], k, |cuts| - 1)
    ensures ChunksOf(c, ws, cuts, k + 1) ==
            ChunksOf(c, ws, cuts, k)[..|cuts| - 1] + [ChunkOf(c, ws, cuts[|cuts| - 1], k + 1, |cuts| - 1)]
  {
    hide ChunkOf;
    GroupsSnoc(cuts, k);
    assert cuts[|cuts| - 1] < CutAfter(cuts, |cuts| - 1, k);
  }

  lemma {:induction false} NewChunk(c: Chunker, ws: seq<Window>, k: nat, index: nat, text: string, count: nat)
    requires k < |ws| && text == Contextual(ws[k]) && count == CountTokens(c, text)
    ensures ChunkOf(c, ws, k, k + 1, index) == Chunk(
      index, text, count, Offset(c, ws, k), Offset(c, ws, k) + count, ws[k].headings, c.hash(text), Content, None, None)
  {
  }

  lemma {:induction false} GrownChunk(c: Chunker, ws: seq<Window>, a: nat, k: nat, index: nat, previous: Chunk,
                                      text: string, count: nat)
    requires a < k < |ws| && text == Contextual(ws[k]) && count == CountTokens(c, text)
    requires previous == ChunkOf(c, ws, a, k, index)
    ensures var merged := Strip(previous.text + "\n\n" + text);
            ChunkOf(c, ws, a, k + 1, index) == Chunk(
              previous.index, merged, CountTokens(c, merged), previous.startToken, Offset(c, ws, k) + count,
              previous.headings, c.hash(merged), Content, None, None)
  {
    hide Strip, WithHeadingContext;
  }

  method ToChunks(c: Chunker, ws: seq<Window>) returns (chunks: seq<Chunk>)
    ensures Groups(Cuts(Openings(c, ws), |ws|), |ws|)
    ensures chunks == ChunksOf(c, ws, Cuts(Openings(c, ws), |ws|), |ws|)
  {
    hide Strip, WithHeadingContext, CountTokens, ChunkOf;
    chunks := [];
    var cursor: nat := 0;
    ghost var opens, cuts: seq<nat> := Openings(c, ws), [];
    for k := 0 to |ws|
      invariant cursor == Offset(c, ws, k) && cuts == Cuts(opens, k) && Groups(cuts, k)
      invariant chunks == ChunksOf(c, ws, cuts, k) && (k > 0 ==> chunks != [])
    {
      var text := WithHeadingContext(Strip(ws[k].text), ws[k].headings);
      var tokenCount := CountTokens(c, text);
      assert opens[k] <==> k == 0 || tokenCount >= c.minChunkTokens;
      if tokenCount < c.minChunkTokens && chunks != [] {
        Merging(c, ws, cuts, k);
        var previous := chunks[|chunks| - 1];
        GrownChunk(c, ws, cuts[|cuts| - 1], k, |cuts| - 1, previous, text, tokenCount);
        var merged := Strip(previous.text + "\n\n" + text);
        chunks := chunks[..|chunks| - 1] + [Chunk(
          previous.index, merged, CountTokens(c, merged), previous.startToken, cursor + tokenCount,
          previous.headings, c.hash(merged), Content, None, None)];
      } else {
        Opening(c, ws, cuts, k);
        NewChunk(c, ws, k, |chunks|, text, tokenCount);
        cuts := cuts + [k];
        chunks := chunks + [Chunk(
          |chunks|, text, tokenCount, cursor, cursor + tokenCount, ws[k].headings, c.hash(text), Content, None, None)];
      }
      cursor := cursor + Advance(c, tokenCount);
    }
  }
}
