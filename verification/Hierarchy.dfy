// hierarchy.py: indexing a document whole, or as a sample of its chunks with
// summaries of the document and of its sections.
module Hierarchy {
  import opened Wrappers
  import opened LargeBlock
  import opened Ranges
  import opened Windows
  import opened Chunks
  import opened Sampling
  import Decimal

  datatype Limits = Limits(maxChunks: int, groupChunks: int, maxSummaries: int)

  // summary_text, of the summary's kind, source range, headings and chunks.
  type Summarizer = (Kind, int, int, seq<string>, seq<Chunk>) -> string

  function AsContent(chunk: Chunk): Chunk {
    chunk.(kind := Content, sourceStart := Some(chunk.index), sourceEnd := Some(chunk.index))
  }

  function AsContents(chunks: seq<Chunk>): (contents: seq<Chunk>)
    ensures |contents| == |chunks| && forall i :: 0 <= i < |chunks| ==> contents[i] == AsContent(chunks[i])
  {
    seq(|chunks|, i requires 0 <= i < |chunks| => AsContent(chunks[i]))
  }

  function Renumber(chunks: seq<Chunk>): (renumbered: seq<Chunk>)
    ensures |renumbered| == |chunks| && forall i :: 0 <= i < |chunks| ==> renumbered[i] == chunks[i].(index := i)
  {
    seq(|chunks|, i requires 0 <= i < |chunks| => chunks[i].(index := i))
  }

  // What is sampled from n items under a limit: positions, in order.
  function Picks(n: nat, limit: int): (picks: seq<nat>)
    ensures |picks| == if limit <= 0 then 0 else if n <= limit then n else limit
  {
    if limit <= 0 then []
    else if n <= limit then seq(n, i => i)
    else if limit == 1 then [0]
    else seq(limit, slot requires 0 <= slot => SlotIndex(slot, n, limit))
  }

  // Any sample is strictly ascending and inside; a real one of two or more items
  // has both ends and even gaps.
  lemma {:induction false} PicksAscend(n: nat, limit: int)
    ensures var picks := Picks(n, limit);
            && (forall i :: 0 <= i < |picks| ==> picks[i] < n)
            && (forall i :: 0 < i < |picks| ==> picks[i - 1] < picks[i])
            && (n > limit >= 2 ==> picks[0] == 0 && picks[limit - 1] == n - 1)
            && (n > limit >= 2 ==> forall i :: 0 < i < |picks| ==> picks[i] <= picks[i - 1] + (n - 1) / (limit - 1) + 1)
  {
    if n > limit >= 2 {
      SamplingIsEven(n, limit);
      hide SlotIndex;
      var picks := Picks(n, limit);
      forall i | 0 < i < |picks|
        ensures picks[i - 1] < picks[i] <= picks[i - 1] + (n - 1) / (limit - 1) + 1
      {
        assert picks[i - 1] == SlotIndex(i - 1, n, limit) && picks[i] == SlotIndex(i - 1 + 1, n, limit);
      }
    }
  }

  function ContentsAt(chunks: seq<Chunk>, picks: seq<nat>): (sample: seq<Chunk>)
    requires forall i :: 0 <= i < |picks| ==> picks[i] < |chunks|
    ensures |sample| == |picks| && forall i :: 0 <= i < |picks| ==> sample[i] == AsContent(chunks[picks[i]])
  {
    seq(|picks|, i requires 0 <= i < |picks| => AsContent(chunks[picks[i]]))
  }

  // The sampled chunks, as content chunks.
  function Representatives(chunks: seq<Chunk>, limit: int): seq<Chunk> {
    PicksAscend(|chunks|, limit);
    if 0 < limit && |chunks| <= limit then Renumber(AsContents(chunks))
    else ContentsAt(chunks, Picks(|chunks|, limit))
  }

  method SelectRepresentativeChunks(chunks: seq<Chunk>, limit: int) returns (selected: seq<Chunk>)
    ensures selected == Representatives(chunks, limit)
  {
    PicksAscend(|chunks|, limit);
    if limit <= 0 {
      return [];
    }
    if |chunks| <= limit {
      return Renumber(AsContents(chunks));
    }
    if limit == 1 {
      return [AsContent(chunks[0])];
    }
    selected := [];
    ghost var picks := Picks(|chunks|, limit);
    for slot := 0 to limit
      invariant |selected| == slot
      invariant forall i :: 0 <= i < slot ==> selected[i] == AsContent(chunks[picks[i]])
    {
      var source := RoundHalfEven(slot * (|chunks| - 1), limit - 1);
      assert source == picks[slot];
      selected := selected + [AsContent(chunks[source])];
    }
  }

  // The headings of some chunks, each once, in order of first appearance.
  function HeadingsOf(chunks: seq<Chunk>): seq<string> {
    if chunks == [] then []
    else
      var before := HeadingsOf(chunks[..|chunks| - 1]);
      WithNew(before, chunks[|chunks| - 1].headings)
  }

  function WithNew(known: seq<string>, more: seq<string>): seq<string>
    decreases |more|
  {
    if more == [] then known
    else WithNew(if more[0] in known then known else known + [more[0]], more[1..])
  }

  function KindName(kind: Kind): string {
    match kind
    case Content => "content"
    case DocumentSummary => "document_summary"
    case SectionSummary => "section_summary"
  }

  function SummaryChunk(c: Chunker, text: string, headings: seq<string>, kind: Kind, first: int, last: int): Chunk {
    var count := CountTokens(c, text);
    Chunk(0, text, count, 0, count, headings,
          c.hash(KindName(kind) + ":" + Decimal.Print(first) + ":" + Decimal.Print(last) + ":" + text),
          kind, Some(first), Some(last))
  }

  const SUMMARY_SAMPLE := 12

  function DocumentSummaryOf(c: Chunker, body: Summarizer, chunks: seq<Chunk>): Chunk {
    var headings := HeadingsOf(chunks);
    var sample := Representatives(chunks, if |chunks| < SUMMARY_SAMPLE then |chunks| else SUMMARY_SAMPLE);
    SummaryChunk(c, body(DocumentSummary, 0, |chunks| - 1, headings, sample), headings, DocumentSummary, 0,
                 |chunks| - 1)
  }

  function GroupSummaryOf(c: Chunker, body: Summarizer, group: seq<Chunk>): Chunk
    requires group != []
  {
    var headings, first, last := HeadingsOf(group), group[0].index, group[|group| - 1].index;
    SummaryChunk(c, body(SectionSummary, first, last, headings, group), headings, SectionSummary, first, last)
  }

  function GroupSize(limits: Limits): (size: nat)
    ensures size >= 1
  {
    if limits.groupChunks > 1 then limits.groupChunks else 1
  }

  // Section g holds the chunks from position Start(g, size) on.
  function Sections(chunks: seq<Chunk>, size: nat): (groups: seq<seq<Chunk>>)
    requires size >= 1
    ensures |groups| == Count(|chunks|, size)
    ensures forall g {:trigger groups[g]} :: 0 <= g < |groups| ==>
              groups[g] == Slice(chunks, Start(g, size), size) && groups[g] != []
  {
    StartsInside(|chunks|, size);
    assert forall g :: 0 <= g < Count(|chunks|, size) && Inside(g, size, |chunks|) ==>
             Slice(chunks, Start(g, size), size) != [];
    seq(Count(|chunks|, size), g requires 0 <= g => Slice(chunks, Start(g, size), size))
  }

  function GroupsAt(groups: seq<seq<Chunk>>, picks: seq<nat>): (picked: seq<seq<Chunk>>)
    requires forall s :: 0 <= s < |picks| ==> picks[s] < |groups|
    ensures |picked| == |picks| && forall s :: 0 <= s < |picks| ==> picked[s] == groups[picks[s]]
  {
    seq(|picks|, s requires 0 <= s < |picks| => groups[picks[s]])
  }

  method SelectRepresentativeGroups(groups: seq<seq<Chunk>>, limit: nat) returns (picked: seq<seq<Chunk>>)
    requires limit >= 1
    ensures forall s :: 0 <= s < |Picks(|groups|, limit)| ==> Picks(|groups|, limit)[s] < |groups|
    ensures picked == GroupsAt(groups, Picks(|groups|, limit))
  {
    PicksAscend(|groups|, limit);
    hide SlotIndex;
    if |groups| <= limit {
      assert forall s :: 0 <= s < |groups| ==> Picks(|groups|, limit)[s] == s;
      return groups;
    }
    if limit == 1 {
      return [groups[0]];
    }
    ghost var picks := Picks(|groups|, limit);
    assert forall slot :: 0 <= slot < limit ==> picks[slot] == SlotIndex(slot, |groups|, limit);
    picked := seq(limit, slot requires 0 <= slot < limit && picks[slot] == SlotIndex(slot, |groups|, limit) =>
      groups[SlotIndex(slot, |groups|, limit)]);
  }

  // Which sections are summarised: all, or an even sample under a positive cap.
  function SectionLimit(count: nat, limits: Limits): int {
    if limits.maxSummaries > 0 then limits.maxSummaries else count
  }

  function GroupSummaries(c: Chunker, body: Summarizer, groups: seq<seq<Chunk>>): (summaries: seq<Chunk>)
    requires forall s :: 0 <= s < |groups| ==> groups[s] != []
    ensures |summaries| == |groups|
    ensures forall s :: 0 <= s < |groups| ==> summaries[s] == GroupSummaryOf(c, body, groups[s])
  {
    seq(|groups|, s requires 0 <= s < |groups| => GroupSummaryOf(c, body, groups[s]))
  }

  function PickedSections(limits: Limits, chunks: seq<Chunk>): (groups: seq<seq<Chunk>>)
    ensures forall s :: 0 <= s < |groups| ==> groups[s] != []
  {
    var sections := Sections(chunks, GroupSize(limits));
    var limit := SectionLimit(|sections|, limits);
    PicksAscend(|sections|, limit);
    GroupsAt(sections, Picks(|sections|, limit))
  }

  function Summaries(c: Chunker, body: Summarizer, limits: Limits, chunks: seq<Chunk>): seq<Chunk> {
    [DocumentSummaryOf(c, body, chunks)] + GroupSummaries(c, body, PickedSections(limits, chunks))
  }

  lemma {:induction false} PickedCases(limits: Limits, chunks: seq<Chunk>, sections: seq<seq<Chunk>>, limit: int)
    requires sections == Sections(chunks, GroupSize(limits)) && limit == limits.maxSummaries
    ensures forall s :: 0 <= s < |Picks(|sections|, limit)| ==> Picks(|sections|, limit)[s] < |sections|
    ensures PickedSections(limits, chunks) ==
            if limit > 0 && |sections| > limit then GroupsAt(sections, Picks(|sections|, limit)) else sections
  {
    hide Sections, SlotIndex;
    PicksAscend(|sections|, limit);
  }

  method BuildSummaryChunks(c: Chunker, body: Summarizer, limits: Limits, chunks: seq<Chunk>)
    returns (summaries: seq<Chunk>)
    ensures summaries == Summaries(c, body, limits, chunks)
  {
    hide Picks, Sections, PickedSections, GroupSummaryOf, DocumentSummaryOf;
    var groups := Sections(chunks, GroupSize(limits));
    PickedCases(limits, chunks, groups, limits.maxSummaries);
    if limits.maxSummaries > 0 && |groups| > limits.maxSummaries {
      groups := SelectRepresentativeGroups(groups, limits.maxSummaries);
    }
    assert groups == PickedSections(limits, chunks);
    ghost var document, sections := DocumentSummaryOf(c, body, chunks), GroupSummaries(c, body, groups);
    summaries := [DocumentSummaryOf(c, body, chunks)];
    for s := 0 to |groups|
      invariant summaries == [document] + sections[..s]
    {
      SliceSnoc(sections, 0, s);
      summaries := summaries + [GroupSummaryOf(c, body, groups[s])];
    }
  }
}
