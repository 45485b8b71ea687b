// What prepare_chunks indexes: numbering, source ranges and size.
module HierarchyFacts {
  import opened Wrappers
  import opened LargeBlock
  import opened Ranges
  import opened Chunks
  import opened ChunkFacts
  import opened Hierarchy
  import opened Sampling
  import opened Dedup

  // The last source position of section g.
  function SectionEnd(n: nat, size: nat, g: nat): int {
    (if Start(g + 1, size) < n then Start(g + 1, size) else n) - 1
  }

  lemma {:induction false} SectionRange(chunks: seq<Chunk>, size: nat, g: nat)
    requires Positional(chunks) && size >= 1 && g < Count(|chunks|, size)
    ensures var section := Sections(chunks, size)[g];
            && section != [] && section[0].index == Start(g, size) < |chunks|
            && section[|section| - 1].index == SectionEnd(|chunks|, size, g)
            && Start(g, size) <= SectionEnd(|chunks|, size, g)
  {
    StartsInside(|chunks|, size);
    assert Inside(g, size, |chunks|);
    var section := Sections(chunks, size)[g];
    assert section == Slice(chunks, Start(g, size), size);
  }

  // Ranges that follow each other from 0 to n - 1 without gap or overlap.
  ghost predicate Tiles(lows: seq<int>, highs: seq<int>, n: nat) {
    && |lows| == |highs| && (n == 0 <==> lows == [])
    && (lows != [] ==> lows[0] == 0 && highs[|highs| - 1] == n - 1)
    && (forall s :: 0 < s < |lows| ==> lows[s] == highs[s - 1] + 1)
  }

  function Lows(picks: seq<nat>, size: nat): (lows: seq<int>)
    ensures |lows| == |picks| && forall s :: 0 <= s < |picks| ==> lows[s] == Start(picks[s], size)
  {
    seq(|picks|, s requires 0 <= s < |picks| => Start(picks[s], size))
  }

  function Highs(picks: seq<nat>, size: nat, n: nat): (highs: seq<int>)
    ensures |highs| == |picks| && forall s :: 0 <= s < |picks| ==> highs[s] == SectionEnd(n, size, picks[s])
  {
    seq(|picks|, s requires 0 <= s < |picks| => SectionEnd(n, size, picks[s]))
  }

  lemma {:induction false} AllSectionsTile(n: nat, size: nat)
    requires size >= 1
    ensures var picks := Picks(Count(n, size), Count(n, size)); Tiles(Lows(picks, size), Highs(picks, size, n), n)
  {
    var count := Count(n, size);
    var picks := Picks(count, count);
    StartsInside(n, size);
    forall s | 0 < s < count
      ensures Start(picks[s], size) == SectionEnd(n, size, picks[s - 1]) + 1
    {
      assert Inside(s, size, n);
    }
  }

  lemma {:induction false} StartIsInside(n: nat, size: nat, g: nat)
    requires size >= 1 && g < Count(n, size)
    ensures Start(g, size) < n && Start(0, size) == 0
  {
    StartsInside(n, size);
    assert Inside(g, size, n);
  }

  // Tiling forces the sections to be taken one after the other.
  lemma {:induction false} TilingTakesAll(n: nat, size: nat, picks: seq<nat>, s: nat)
    requires size >= 1 && s < |picks|
    requires forall i :: 0 <= i < |picks| ==> picks[i] < Count(n, size)
    requires Tiles(Lows(picks, size), Highs(picks, size, n), n)
    ensures picks[s] == s
  {
    hide Start, Count;
    StartIsInside(n, size, picks[s]);
    if s > 0 {
      TilingTakesAll(n, size, picks, s - 1);
      assert Lows(picks, size)[s] == Highs(picks, size, n)[s - 1] + 1;
      StartIsInjective(picks[s], s, size);
    } else {
      assert Lows(picks, size)[0] == 0;
      StartIsInjective(picks[0], 0, size);
    }
  }

  lemma {:induction false} StartIsInjective(a: nat, b: nat, size: nat)
    requires size >= 1 && Start(a, size) == Start(b, size)
    ensures a == b
  {
    if a < b {
      StartBelow(a, b, size);
    } else if b < a {
      StartBelow(b, a, size);
    }
  }

  // The numbers of the summarised sections of n chunks.
  function SectionPicks(limits: Limits, n: nat): seq<nat> {
    var count := Count(n, GroupSize(limits));
    Picks(count, SectionLimit(count, limits))
  }

  // The summarised sections tile the source exactly when the cap leaves none out.
  lemma {:induction false} SectionsTileUnlessCapped(limits: Limits, n: nat)
    ensures var size, picks := GroupSize(limits), SectionPicks(limits, n);
            Tiles(Lows(picks, size), Highs(picks, size, n), n) <==> !(0 < limits.maxSummaries < Count(n, size))
  {
    var size, picks := GroupSize(limits), SectionPicks(limits, n);
    var count := Count(n, size);
    PicksAscend(count, SectionLimit(count, limits));
    if 0 < limits.maxSummaries < count {
      CappedDoNotTile(n, size, limits.maxSummaries);
    } else {
      AllSectionsTile(n, size);
      assert picks == Picks(count, count);
    }
  }

  lemma {:induction false} CappedDoNotTile(n: nat, size: nat, limit: int)
    requires size >= 1 && 0 < limit < Count(n, size)
    ensures var picks := Picks(Count(n, size), limit); !Tiles(Lows(picks, size), Highs(picks, size, n), n)
  {
    var count := Count(n, size);
    var picks := Picks(count, limit);
    PicksAscend(count, limit);
    StartsInside(n, size);
    assert Inside(1, size, n);
    assert limit == 1 ==> picks[0] == 0 && SectionEnd(n, size, 0) < n - 1;
    if Tiles(Lows(picks, size), Highs(picks, size, n), n) {
      TilingTakesAll(n, size, picks, limit - 1);
    }
  }

  // Section summary s tells the range of the section it was made from.
  lemma {:induction false} SummaryRange(c: Chunker, body: Summarizer, limits: Limits, chunks: seq<Chunk>,
                                        picks: seq<nat>, s: nat)
    requires Positional(chunks) && s < |picks|
    requires picks == SectionPicks(limits, |chunks|)
    ensures |Summaries(c, body, limits, chunks)| == |picks| + 1 && picks[s] < Count(|chunks|, GroupSize(limits))
    ensures var summary := Summaries(c, body, limits, chunks)[s + 1];
            && summary.kind == SectionSummary
            && summary.sourceStart == Some(Start(picks[s], GroupSize(limits)))
            && summary.sourceEnd == Some(SectionEnd(|chunks|, GroupSize(limits), picks[s]))
  {
    var size := GroupSize(limits);
    var count := Count(|chunks|, size);
    PicksAscend(count, SectionLimit(count, limits));
    SectionRange(chunks, size, picks[s]);
    assert PickedSections(limits, chunks)[s] == Sections(chunks, size)[picks[s]];
  }

  // Section summaries come in order and no two share a source chunk.
  lemma {:induction false} SectionsAscend(c: Chunker, body: Summarizer, limits: Limits, chunks: seq<Chunk>, s: nat)
    requires Positional(chunks) && s + 2 < |Summaries(c, body, limits, chunks)|
    ensures var summaries := Summaries(c, body, limits, chunks);
            && summaries[s + 1].sourceEnd.Some? && summaries[s + 2].sourceStart.Some?
            && summaries[s + 1].sourceEnd.value < summaries[s + 2].sourceStart.value
  {
    hide *;
    var picks := SectionPicks(limits, |chunks|);
    NeighbouringPicks(c, body, limits, chunks, s);
    EndBeforeStart(|chunks|, GroupSize(limits), picks[s], picks[s + 1]);
    SummaryRange(c, body, limits, chunks, picks, s);
    SummaryRange(c, body, limits, chunks, picks, s + 1);
  }

  lemma {:induction false} NeighbouringPicks(c: Chunker, body: Summarizer, limits: Limits, chunks: seq<Chunk>, s: nat)
    requires s + 2 < |Summaries(c, body, limits, chunks)|
    ensures var picks := SectionPicks(limits, |chunks|); s + 1 < |picks| && picks[s] < picks[s + 1]
  {
    assert |PickedSections(limits, chunks)| == |SectionPicks(limits, |chunks|)|;
    PicksAscend(Count(|chunks|, GroupSize(limits)), SectionLimit(Count(|chunks|, GroupSize(limits)), limits));
    hide Picks;
  }

  lemma {:induction false} EndBeforeStart(n: nat, size: nat, g: nat, h: nat)
    requires g < h
    ensures SectionEnd(n, size, g) < Start(h, size)
  {
    if g + 1 < h {
      StartBelow(g + 1, h, size);
    }
  }

  // What is indexed for a list of chunks.
  function Indexed(c: Chunker, body: Summarizer, limits: Limits, chunks: seq<Chunk>): seq<Chunk> {
    if |chunks| <= limits.maxChunks then Renumber(AsContents(chunks))
    else Renumber(Representatives(chunks, limits.maxChunks) + Summaries(c, body, limits, chunks))
  }

  datatype Prepared = Prepared(
    chunks: seq<Chunk>, oversized: bool, originalCount: nat, contentCount: nat, summaryCount: nat, dedup: DedupResult)

  function Truncated(markdown: string, maxChars: int): string {
    if 0 < maxChars < |markdown| then markdown[..maxChars] else markdown
  }

  method PrepareChunks(c: Chunker, body: Summarizer, limits: Limits, maxChars: int, key: string -> string,
                       markdown: string)
    returns (p: Prepared)
    ensures p.dedup == Deduplicated(markdown, key)
    ensures var chunks := ChunksOfDocument(c, Truncated(p.dedup.markdown, maxChars));
            && p.chunks == Indexed(c, body, limits, chunks) && p.originalCount == |chunks|
            && p.oversized == (|chunks| > limits.maxChunks)
            && p.contentCount == (if p.oversized then |Representatives(chunks, limits.maxChunks)| else |chunks|)
            && p.contentCount + p.summaryCount == |p.chunks|
  {
    hide ChunksOfDocument, Deduplicated, Representatives, Summaries;
    var dedup := DeduplicateMarkdown(markdown, key);
    var source := dedup.markdown;
    if maxChars > 0 && |source| > maxChars {
      source := source[..maxChars];
    }
    var chunks := Split(c, source);
    if |chunks| <= limits.maxChunks {
      return Prepared(Renumber(AsContents(chunks)), false, |chunks|, |chunks|, 0, dedup);
    }
    var content := SelectRepresentativeChunks(chunks, limits.maxChunks);
    var summaries := BuildSummaryChunks(c, body, limits, chunks);
    p := Prepared(Renumber(content + summaries), true, |chunks|, |content|, |summaries|, dedup);
  }

  ghost predicate InSource(chunk: Chunk, n: nat) {
    && chunk.sourceStart.Some? && chunk.sourceEnd.Some?
    && 0 <= chunk.sourceStart.value && chunk.sourceEnd.value <= n - 1
    && (n > 0 ==> chunk.sourceStart.value <= chunk.sourceEnd.value)
  }

  lemma {:induction false} RepresentativesInSource(chunks: seq<Chunk>, limit: int)
    requires Positional(chunks)
    ensures var sample := Representatives(chunks, limit);
            && |sample| == |Picks(|chunks|, limit)|
            && forall i :: 0 <= i < |sample| ==>
                 sample[i].kind == Content && InSource(sample[i], |chunks|)
                 && sample[i].sourceStart == sample[i].sourceEnd == Some(Picks(|chunks|, limit)[i])
  {
    PicksAscend(|chunks|, limit);
    hide SlotIndex;
  }

  lemma {:induction false} SummariesInSource(c: Chunker, body: Summarizer, limits: Limits, chunks: seq<Chunk>)
    requires Positional(chunks)
    ensures var summaries := Summaries(c, body, limits, chunks);
            && summaries[0].kind == DocumentSummary
            && summaries[0].sourceStart == Some(0) && summaries[0].sourceEnd == Some(|chunks| - 1)
            && forall i :: 0 <= i < |summaries| ==> InSource(summaries[i], |chunks|)
  {
    var summaries := Summaries(c, body, limits, chunks);
    forall i | 0 < i < |summaries|
      ensures InSource(summaries[i], |chunks|)
    {
      SectionInSource(c, body, limits, chunks, i - 1);
    }
  }

  lemma {:induction false} SectionInSource(c: Chunker, body: Summarizer, limits: Limits, chunks: seq<Chunk>, s: nat)
    requires Positional(chunks) && s + 1 < |Summaries(c, body, limits, chunks)|
    ensures InSource(Summaries(c, body, limits, chunks)[s + 1], |chunks|)
  {
    var picks := SectionPicks(limits, |chunks|);
    assert |PickedSections(limits, chunks)| == |picks|;
    hide Summaries, SectionPicks, Sections, Start, Count, Positional;
    SummaryRange(c, body, limits, chunks, picks, s);
    SectionIsInside(chunks, GroupSize(limits), picks[s]);
  }

  lemma {:induction false} SectionIsInside(chunks: seq<Chunk>, size: nat, g: nat)
    requires Positional(chunks) && size >= 1 && g < Count(|chunks|, size)
    ensures 0 <= Start(g, size) <= SectionEnd(|chunks|, size, g) <= |chunks| - 1
  {
    hide Sections;
    SectionRange(chunks, size, g);
  }

  // Everything indexed is numbered by position and comes from the source; a small
  // document is indexed whole; a large one by a sample and its summaries, whose
  // number the limits bound.
  lemma {:induction false} IndexedFacts(c: Chunker, body: Summarizer, limits: Limits, chunks: seq<Chunk>)
    requires Positional(chunks)
    ensures var indexed, n := Indexed(c, body, limits, chunks), |chunks|;
            && Positional(indexed)
            && (forall i :: 0 <= i < |indexed| ==> InSource(indexed[i], n))
            && (n <= limits.maxChunks ==>
                  && |indexed| == n
                  && forall i :: 0 <= i < n ==> indexed[i].kind == Content && indexed[i].text == chunks[i].text)
            && (n > limits.maxChunks ==>
                  var sampled := if limits.maxChunks > 0 then limits.maxChunks else 0;
                  && sampled < |indexed| && indexed[sampled].kind == DocumentSummary
                  && indexed[sampled].sourceStart == Some(0) && indexed[sampled].sourceEnd == Some(n - 1)
                  && (limits.maxSummaries > 0 ==> |indexed| <= sampled + 1 + limits.maxSummaries))
  {
    hide SummaryChunk, DocumentSummaryOf, GroupSummaryOf, SlotIndex, Sections;
    if |chunks| > limits.maxChunks {
      RepresentativesInSource(chunks, limits.maxChunks);
      SummariesInSource(c, body, limits, chunks);
    }
  }

  // Whatever document it is given, prepare_chunks numbers its chunks by position.
  lemma {:induction false} PreparedIsPositional(c: Chunker, body: Summarizer, limits: Limits, markdown: string)
    ensures Positional(Indexed(c, body, limits, ChunksOfDocument(c, markdown)))
  {
    hide Indexed, ChunksOfDocument;
    ChunksArePositional(c, markdown);
    IndexedFacts(c, body, limits, ChunksOfDocument(c, markdown));
  }
}
