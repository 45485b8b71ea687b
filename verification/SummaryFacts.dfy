// What prepare_chunks indexes, chunk by chunk: which chunks are sampled, and what the
// summaries say.
module SummaryFacts {
  import opened Wrappers
  import opened LargeBlock
  import opened Ranges
  import opened Chunks
  import opened Hierarchy
  import opened HierarchyFacts
  import opened Sampling
  import opened Dedup
  import Decimal

  // Which of n items are sampled: none, all, the first, or the nearest to even spacing.
  ghost predicate IsSample(picks: seq<nat>, n: nat, limit: int) {
    if limit <= 0 then picks == []
    else if n <= limit then |picks| == n && forall i :: 0 <= i < n ==> picks[i] == i
    else if limit == 1 then picks == [0]
    else |picks| == limit && forall i :: 0 <= i < limit ==> IsEven(i, n, limit, picks[i])
  }

  // The i-th of `limit` places, spread evenly over n items, rounded to the nearest.
  ghost predicate IsEven(i: nat, n: nat, limit: int, place: nat) {
    n > 0 && limit > 1 && IsNearest(i * (n - 1), limit - 1, place)
  }

  lemma {:induction false} PicksAreSample(n: nat, limit: int)
    ensures IsSample(Picks(n, limit), n, limit)
  {
    hide IsEven, SlotIndex;
    if n > limit >= 2 {
      forall i | 0 <= i < limit
        ensures IsEven(i, n, limit, Picks(n, limit)[i])
      {
        SlotIsEven(i, n, limit);
      }
    }
  }

  lemma {:induction false} SlotIsEven(i: nat, n: nat, limit: nat)
    requires n >= 1 && limit >= 2
    ensures IsEven(i, n, limit, SlotIndex(i, n, limit))
  {
    RoundIsNearest(i * (n - 1), limit - 1);
    hide IsNearest, RoundHalfEven;
  }

  // A chunk as it is indexed: at its new place, as content from its own place.
  function ContentAt(chunk: Chunk, index: nat, source: nat): Chunk {
    chunk.(index := index, kind := Content, sourceStart := Some(source), sourceEnd := Some(source))
  }

  // A document that fits is indexed chunk by chunk, unchanged but for its kind and range.
  lemma {:induction false} SmallIsWhole(c: Chunker, body: Summarizer, limits: Limits, chunks: seq<Chunk>)
    requires Positional(chunks) && |chunks| <= limits.maxChunks
    ensures var indexed := Indexed(c, body, limits, chunks);
            |indexed| == |chunks| && forall i :: 0 <= i < |chunks| ==> indexed[i] == ContentAt(chunks[i], i, i)
  {
    hide Summaries, Representatives;
  }

  // The indexed chunks are the picked ones, unchanged too, and then the summaries.
  ghost predicate IsPicked(chunks: seq<Chunk>, picks: seq<nat>, summaries: seq<Chunk>, indexed: seq<Chunk>) {
    && |indexed| == |picks| + |summaries|
    && (forall j :: 0 <= j < |picks| ==>
          picks[j] < |chunks| && indexed[j] == ContentAt(chunks[picks[j]], j, picks[j]))
    && (forall s :: 0 <= s < |summaries| ==> indexed[|picks| + s] == summaries[s].(index := |picks| + s))
  }

  // A larger one is indexed by its sampled chunks, then the document summary, then the
  // summaries of the sampled sections.
  lemma {:induction false} LargeIsSampled(c: Chunker, body: Summarizer, limits: Limits, chunks: seq<Chunk>)
    returns (picks: seq<nat>)
    requires Positional(chunks) && |chunks| > limits.maxChunks
    ensures IsSample(picks, |chunks|, limits.maxChunks)
    ensures IsPicked(chunks, picks, Summaries(c, body, limits, chunks), Indexed(c, body, limits, chunks))
  {
    picks := Picks(|chunks|, limits.maxChunks);
    PicksAreSample(|chunks|, limits.maxChunks);
    SampleIs(chunks, limits.maxChunks);
    hide IsSample, Picks, Summaries, Representatives;
    PickedThenSummaries(chunks, picks, Representatives(chunks, limits.maxChunks), Summaries(c, body, limits, chunks));
  }

  lemma {:induction false} SampleIs(chunks: seq<Chunk>, limit: int)
    requires |chunks| > limit
    ensures var picks, sample := Picks(|chunks|, limit), Representatives(chunks, limit);
            && |sample| == |picks|
            && forall j :: 0 <= j < |picks| ==> picks[j] < |chunks| && sample[j] == AsContent(chunks[picks[j]])
  {
    PicksAscend(|chunks|, limit);
    hide Picks;
  }

  lemma {:induction false} PickedThenSummaries(chunks: seq<Chunk>, picks: seq<nat>, sample: seq<Chunk>,
                                               summaries: seq<Chunk>)
    requires Positional(chunks) && |sample| == |picks|
    requires forall j :: 0 <= j < |picks| ==> picks[j] < |chunks| && sample[j] == AsContent(chunks[picks[j]])
    ensures IsPicked(chunks, picks, summaries, Renumber(sample + summaries))
  {
  }

  // A summary chunk: its text and count, and a hash of its kind, its range and its text.
  ghost predicate IsSummary(c: Chunker, chunk: Chunk, kind: Kind, name: string, first: int, last: int,
                            headings: seq<string>, text: string) {
    && chunk.kind == kind && chunk.text == text && chunk.headings == headings
    && chunk.sourceStart == Some(first) && chunk.sourceEnd == Some(last)
    && chunk.startToken == 0 && chunk.endToken == chunk.tokenCount == |c.encode(text)|
    && chunk.contentHash == c.hash(name + ":" + Decimal.Print(first) + ":" + Decimal.Print(last) + ":" + text)
  }

  // The headings of some chunks, one after another.
  function AllHeadings(chunks: seq<Chunk>): seq<string> {
    if chunks == [] then [] else AllHeadings(chunks[..|chunks| - 1]) + chunks[|chunks| - 1].headings
  }

  ghost predicate IsFirst(list: seq<string>, i: nat) {
    i < |list| && list[i] !in list[..i]
  }

  // What dict.fromkeys keeps of a list: the first of each, in order.
  ghost predicate Distinct(list: seq<string>, out: seq<string>, at: seq<nat>) {
    Places(list, out, at) && forall i: nat :: i in at <==> IsFirst(list, i)
  }

  ghost predicate Places(list: seq<string>, out: seq<string>, at: seq<nat>) {
    && |at| == |out|
    && (forall j :: 0 <= j < |at| ==> at[j] < |list| && out[j] == list[at[j]])
    && (forall i, j :: 0 <= i < j < |at| ==> at[i] < at[j])
  }

  lemma {:induction false} PlacesMore(list: seq<string>, out: seq<string>, at: seq<nat>, h: string)
    requires Places(list, out, at)
    ensures Places(list + [h], out, at) && Places(list + [h], out + [h], at + [|list|])
  {
  }

  lemma {:induction false} OneMoreHeading(list: seq<string>, out: seq<string>, at: seq<nat>, h: string)
    returns (more: seq<nat>)
    requires Distinct(list, out, at)
    ensures Distinct(list + [h], if h in out then out else out + [h], more)
  {
    KnownIsListed(list, out, at, h);
    StillFirst(list, h);
    PlacesMore(list, out, at, h);
    hide IsFirst, Places;
    more := if h in out then at else at + [|list|];
    assert forall i: nat :: i in at + [|list|] <==> i in at || i == |list|;
  }

  lemma {:induction false} StillFirst(list: seq<string>, h: string)
    ensures forall i: nat :: IsFirst(list, i) ==> i < |list|
    ensures forall i: nat :: IsFirst(list + [h], i) <==> IsFirst(list, i) || (i == |list| && h !in list)
  {
    forall i: nat
      ensures IsFirst(list + [h], i) <==> IsFirst(list, i) || (i == |list| && h !in list)
    {
      if i < |list| {
        assert (list + [h])[..i] == list[..i];
      } else if i == |list| {
        assert (list + [h])[..i] == list;
      }
    }
  }

  lemma {:induction false} KnownIsListed(list: seq<string>, out: seq<string>, at: seq<nat>, h: string)
    requires Distinct(list, out, at)
    ensures h in out <==> h in list
  {
    if h in out {
      var j :| 0 <= j < |out| && out[j] == h;
      assert list[at[j]] == h;
    }
    if h in list {
      var i := FirstPlace(list, h);
      assert i in at;
      var j :| 0 <= j < |at| && at[j] == i;
      assert out[j] == h;
    }
  }

  lemma {:induction false} FirstPlace(list: seq<string>, h: string) returns (i: nat)
    requires h in list
    ensures IsFirst(list, i) && list[i] == h
  {
    i := 0;
    while list[i] != h
      invariant i < |list| && h !in list[..i]
      decreases |list| - i
    {
      i := i + 1;
    }
  }

  lemma {:induction false} NewAreDistinct(list: seq<string>, out: seq<string>, at: seq<nat>, more: seq<string>)
    returns (after: seq<nat>)
    requires Distinct(list, out, at)
    ensures Distinct(list + more, WithNew(out, more), after)
    decreases |more|
  {
    hide Distinct;
    if more == [] {
      after := at;
      assert list + more == list;
    } else {
      var one := OneMoreHeading(list, out, at, more[0]);
      after := NewAreDistinct(list + [more[0]], if more[0] in out then out else out + [more[0]], one, more[1..]);
      assert list + [more[0]] + more[1..] == list + more;
    }
  }

  // The headings of a summary are those of its chunks, the first of each, in order.
  lemma {:induction false} HeadingsAreDistinct(chunks: seq<Chunk>) returns (at: seq<nat>)
    ensures Distinct(AllHeadings(chunks), HeadingsOf(chunks), at)
  {
    if chunks == [] {
      at := [];
    } else {
      var before := HeadingsAreDistinct(chunks[..|chunks| - 1]);
      hide Distinct;
      at := NewAreDistinct(AllHeadings(chunks[..|chunks| - 1]), HeadingsOf(chunks[..|chunks| - 1]), before,
                           chunks[|chunks| - 1].headings);
    }
  }

  // The document summary covers all chunks; its text is made from a sample of at most
  // twelve of them.
  lemma {:induction false} DocumentSummaryIs(c: Chunker, body: Summarizer, limits: Limits, chunks: seq<Chunk>)
    returns (picks: seq<nat>, sample: seq<Chunk>)
    requires Positional(chunks)
    ensures IsSample(picks, |chunks|, 12) && |sample| == |picks|
    ensures forall j :: 0 <= j < |picks| ==>
      picks[j] < |chunks| && sample[j] == ContentAt(chunks[picks[j]], picks[j], picks[j])
    ensures var headings, last := HeadingsOf(chunks), |chunks| - 1;
            IsSummary(c, Summaries(c, body, limits, chunks)[0], DocumentSummary, "document_summary", 0, last, headings,
                      body(DocumentSummary, 0, last, headings, sample))
  {
    picks := Picks(|chunks|, 12);
    PicksAscend(|chunks|, 12);
    PicksAreSample(|chunks|, 12);
    hide IsSample, SlotIndex, PickedSections, HeadingsOf;
    sample := Representatives(chunks, if |chunks| < 12 then |chunks| else 12);
  }

  // The summary of section g, of `size` chunks or what is left: all of them go into its
  // text.
  ghost predicate IsSectionSummary(c: Chunker, body: Summarizer, chunks: seq<Chunk>, summary: Chunk, g: nat,
                                   size: nat) {
    var first := g * size;
    first < |chunks| &&
    var end := if first + size < |chunks| then first + size else |chunks|;
    var group := chunks[first..end];
    IsSummary(c, summary, SectionSummary, "section_summary", first, end - 1, HeadingsOf(group),
              body(SectionSummary, first, end - 1, HeadingsOf(group), group))
  }

  // The summaries after the first are those of the sampled sections, in order.
  lemma {:induction false} SectionSummaryIs(c: Chunker, body: Summarizer, limits: Limits, chunks: seq<Chunk>,
                                            size: nat, s: nat) returns (picks: seq<nat>)
    requires Positional(chunks) && s + 1 < |Summaries(c, body, limits, chunks)|
    requires size == if limits.groupChunks > 1 then limits.groupChunks else 1
    ensures IsSample(picks, Count(|chunks|, size),
                     if limits.maxSummaries > 0 then limits.maxSummaries else Count(|chunks|, size))
    ensures |picks| + 1 == |Summaries(c, body, limits, chunks)|
    ensures IsSectionSummary(c, body, chunks, Summaries(c, body, limits, chunks)[s + 1], picks[s], size)
  {
    picks := SectionPicks(limits, |chunks|);
    PicksAreSample(Count(|chunks|, size), SectionLimit(Count(|chunks|, size), limits));
    var group := SectionIs(c, body, limits, chunks, picks, s);
    hide IsSample, Picks, Summaries, Sections, HeadingsOf, Count, Start, IsSectionSummary, GroupSummaryOf, Slice;
    SectionIsSummarised(c, body, chunks, size, picks[s], group);
  }

  lemma {:induction false} SectionIsSummarised(c: Chunker, body: Summarizer, chunks: seq<Chunk>, size: nat, g: nat,
                                               group: seq<Chunk>)
    requires Positional(chunks) && size >= 1 && g < Count(|chunks|, size)
    requires group == Slice(chunks, Start(g, size), size)
    requires group != []
    ensures IsSectionSummary(c, body, chunks, GroupSummaryOf(c, body, group), g, size)
  {
    hide HeadingsOf, Count, Start, IsSummary, GroupSummaryOf;
    SectionBegins(chunks, size, g, group);
    GroupSummaryIs(c, body, chunks, g * size, group);
  }

  lemma {:induction false} SectionBegins(chunks: seq<Chunk>, size: nat, g: nat, group: seq<Chunk>)
    requires Positional(chunks) && size >= 1 && g < Count(|chunks|, size)
    requires group == Slice(chunks, Start(g, size), size)
    ensures var first := g * size;
            && first < |chunks| && group != [] && first + |group| <= |chunks|
            && group == chunks[first..if first + size < |chunks| then first + size else |chunks|]
            && |group| == (if first + size < |chunks| then first + size else |chunks|) - first
  {
    SectionRange(chunks, size, g);
    StartIsProduct(g, size);
    hide Sections, Positional, Start, Count;
    GroupIsSlice(chunks, g * size, size, group);
  }

  lemma {:induction false} SectionIs(c: Chunker, body: Summarizer, limits: Limits, chunks: seq<Chunk>,
                                     picks: seq<nat>, s: nat) returns (group: seq<Chunk>)
    requires picks == SectionPicks(limits, |chunks|) && s + 1 < |Summaries(c, body, limits, chunks)|
    ensures |picks| + 1 == |Summaries(c, body, limits, chunks)| && picks[s] < Count(|chunks|, GroupSize(limits))
    ensures group == Slice(chunks, Start(picks[s], GroupSize(limits)), GroupSize(limits)) && group != []
    ensures Summaries(c, body, limits, chunks)[s + 1] == GroupSummaryOf(c, body, group)
  {
    var size := GroupSize(limits);
    assert |PickedSections(limits, chunks)| == |picks|;
    PicksAscend(Count(|chunks|, size), SectionLimit(Count(|chunks|, size), limits));
    group := Sections(chunks, size)[picks[s]];
    assert PickedSections(limits, chunks)[s] == group;
    hide Picks, PickedSections, Sections, Start, Count, GroupSummaryOf;
  }

  lemma {:induction false} GroupSummaryIs(c: Chunker, body: Summarizer, chunks: seq<Chunk>, first: nat,
                                          group: seq<Chunk>)
    requires Positional(chunks) && group != [] && first + |group| <= |chunks|
    requires group == chunks[first..first + |group|]
    ensures var end := first + |group|;
            IsSummary(c, GroupSummaryOf(c, body, group), SectionSummary, "section_summary", first, end - 1,
                      HeadingsOf(group), body(SectionSummary, first, end - 1, HeadingsOf(group), group))
  {
    hide HeadingsOf;
    assert group[0] == chunks[first] && group[|group| - 1] == chunks[first + |group| - 1];
  }

  lemma {:induction false} GroupIsSlice(chunks: seq<Chunk>, first: nat, size: nat, group: seq<Chunk>)
    requires group == Slice(chunks, first, size) && first < |chunks|
    ensures group == chunks[first..if first + size < |chunks| then first + size else |chunks|]
  {
  }

  // A document over the character limit is cut at it, before anything else is done.
  lemma {:induction false} TruncatedIs(markdown: string, maxChars: int)
    ensures maxChars <= 0 ==> Truncated(markdown, maxChars) == markdown
    ensures maxChars > 0 ==>
      Truncated(markdown, maxChars) == markdown[..if maxChars < |markdown| then maxChars else |markdown|]
  {
  }
}
