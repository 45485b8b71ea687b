// What to_chunks keeps of the windows: order, offsets and text.
module ChunkFacts {
  import opened Wrappers
  import opened Text
  import opened Markdown
  import opened LargeBlock
  import opened Ranges
  import opened Windows
  import opened Grouping
  import opened Chunks
  import opened MarkdownRoundTrip

  predicate IsPlain(text: string) {
    text != [] && IsStripped(text)
  }

  ghost predicate AllPlain(ws: seq<Window>) {
    forall k :: 0 <= k < |ws| ==> IsPlain(ws[k].text)
  }

  // All the tokenizer is trusted for.
  ghost predicate CountsText(c: Chunker) {
    forall text :: text != [] ==> |c.encode(text)| >= 1
  }

  lemma {:induction false} PiecesArePlain(c: Chunker, block: Block, n: nat)
    ensures forall k :: 0 <= k < |Decoded(c, block, n)| ==> IsPlain(Decoded(c, block, n)[k].text)
  {
    if n > 0 {
      PiecesArePlain(c, block, n - 1);
      StripFacts(c.decode(Slice(c.encode(block.text), Start(n - 1, Step(c)), c.chunkTokens)));
    }
  }

  lemma {:induction false} RunIsPlain(current: seq<Block>)
    requires current != [] && forall k :: 0 <= k < |current| ==> IsPlain(current[k].text)
    ensures IsPlain(WindowOf(current).text) && WindowOf(current).text == Join(Texts(current), "\n\n")
  {
    PrintedIsStripped(Texts(current));
    StripFacts(Join(Texts(current), "\n\n"));
  }

  lemma {:induction false} SpanIsPlain(c: Chunker, blocks: seq<Block>, span: Span)
    requires forall k :: 0 <= k < |blocks| ==> IsPlain(blocks[k].text)
    ensures AllPlain(WindowsOf(c, blocks, span))
  {
    if Fits(span, |blocks|) {
      match span
      case Run(lo, _, hi) => RunIsPlain(blocks[lo..hi]);
      case Large(at) => PiecesArePlain(c, blocks[at], Count(|c.encode(blocks[at].text)|, Step(c)));
    }
  }

  lemma {:induction false} PlanIsPlain(c: Chunker, blocks: seq<Block>, plan: seq<Span>, n: nat)
    requires n <= |plan| && forall k :: 0 <= k < |blocks| ==> IsPlain(blocks[k].text)
    ensures AllPlain(RenderedUpTo(c, blocks, plan, n))
  {
    if n > 0 {
      PlanIsPlain(c, blocks, plan, n - 1);
      SpanIsPlain(c, blocks, plan[n - 1]);
    }
  }

  // Every window that `split` makes of a document has stripped, non-empty text.
  lemma {:induction false} WindowsArePlain(c: Chunker, markdown: string)
    ensures var blocks := SplitBlocks(markdown);
            AllPlain(Rendered(c, blocks, Plan(Sizes(c, blocks), c.chunkTokens, c.overlapTokens)))
  {
    var blocks := SplitBlocks(markdown);
    BlocksArePrintable(markdown);
    forall k | 0 <= k < |blocks|
      ensures IsPlain(blocks[k].text)
    {
      assert IsBlockText(Texts(blocks)[k]);
    }
    var plan := Plan(Sizes(c, blocks), c.chunkTokens, c.overlapTokens);
    PlanIsPlain(c, blocks, plan, |plan|);
  }

  // The heading context goes in front of the stripped text.
  lemma {:induction false} ContextKeepsText(w: Window)
    requires IsPlain(w.text)
    ensures IsPlain(Contextual(w)) && |Contextual(w)| >= |w.text|
            && Contextual(w)[|Contextual(w)| - |w.text|..] == w.text
  {
    StripFacts(w.text);
    var missing := Missing(w.headings, if |w.text| <= CONTEXT_CHARS then w.text else w.text[..CONTEXT_CHARS]);
    var context := "Context: " + Join(missing, " > ") + "\n\n";
    assert missing != [] ==> Contextual(w) == context + w.text;
    assert context[0] == 'C';
  }

  lemma {:induction false} OccursInside(part: string, before: string, s: string, after: string)
    requires Occurs(part, s)
    ensures Occurs(part, before + s + after)
  {
    var i :| 0 <= i <= |s| && OccursAt(part, s, i);
    assert (before + s + after)[|before| + i..|before| + i + |part|] == s[i..i + |part|];
    assert OccursAt(part, before + s + after, |before| + i);
  }

  lemma {:induction false} OccursInJoin(parts: seq<string>, sep: string, k: nat)
    requires k < |parts|
    ensures Occurs(parts[k], Join(parts, sep))
  {
    if k == 0 {
      assert OccursAt(parts[0], Join(parts, sep), 0);
    } else {
      OccursInJoin(parts[1..], sep, k - 1);
      OccursInside(parts[k], parts[0] + sep, Join(parts[1..], sep), "");
      assert parts[0] + sep + Join(parts[1..], sep) + "" == Join(parts, sep);
    }
  }

  lemma {:induction false} ShownOrMissing(headings: seq<string>, text: string, k: nat)
    requires k < |headings|
    ensures Occurs(headings[k], text) || headings[k] in Missing(headings, text)
  {
    if k > 0 {
      ShownOrMissing(headings[1..], text, k - 1);
    }
  }

  // Every heading of a window can be read in its contextual text.
  lemma {:induction false} ContextShowsHeadings(w: Window, k: nat)
    requires k < |w.headings|
    ensures Occurs(w.headings[k], Contextual(w))
  {
    var text := Strip(w.text);
    hide Strip, Occurs;
    var start := if |text| <= CONTEXT_CHARS then text else text[..CONTEXT_CHARS];
    var missing := Missing(w.headings, start);
    var context := if missing == [] then "" else "Context: " + Join(missing, " > ") + "\n\n";
    assert Contextual(w) == context + start + text[|start|..];
    ShownOrMissing(w.headings, start, k);
    if w.headings[k] in missing {
      var m :| 0 <= m < |missing| && missing[m] == w.headings[k];
      OccursInJoin(missing, " > ", m);
      OccursInside(w.headings[k], "Context: ", Join(missing, " > "), "\n\n" + text);
      assert "Context: " + Join(missing, " > ") + ("\n\n" + text) == Contextual(w);
    } else {
      OccursInside(w.headings[k], context, start, text[|start|..]);
    }
  }

  // The headings at some places.
  function HeadingsAt(headings: seq<string>, at: seq<nat>): (picked: seq<string>)
    requires forall j :: 0 <= j < |at| ==> at[j] < |headings|
    ensures |picked| == |at| && forall j :: 0 <= j < |at| ==> picked[j] == headings[at[j]]
  {
    seq(|at|, j requires 0 <= j < |at| => headings[at[j]])
  }

  ghost predicate Ascends(at: seq<nat>, n: nat) {
    && (forall i, j :: 0 <= i < j < |at| ==> at[i] < at[j])
    && (forall j :: 0 <= j < |at| ==> at[j] < n)
  }

  ghost predicate IsMissing(headings: seq<string>, start: string, i: nat) {
    i < |headings| && !Occurs(headings[i], start)
  }

  // The context names exactly the headings that do not occur in the first 300
  // characters of the text, in order; without such headings there is none.
  lemma {:induction false} ContextIs(text: string, headings: seq<string>) returns (at: seq<nat>)
    ensures Ascends(at, |headings|)
    ensures forall i: nat :: i in at <==> IsMissing(headings, if |text| <= 300 then text else text[..300], i)
    ensures WithHeadingContext(text, headings)
         == if at == [] then text else "Context: " + Join(HeadingsAt(headings, at), " > ") + "\n\n" + text
  {
    at := MissingAt(headings, if |text| <= 300 then text else text[..300]);
    hide IsMissing, Missing;
  }

  lemma {:induction false} MissingAt(headings: seq<string>, start: string) returns (at: seq<nat>)
    ensures Ascends(at, |headings|) && Missing(headings, start) == HeadingsAt(headings, at)
    ensures forall i: nat :: i in at <==> IsMissing(headings, start, i)
  {
    hide Occurs, IsMissing;
    if headings == [] {
      at := [];
      NoneMissing(start);
    } else {
      var rest := MissingAt(headings[1..], start);
      at := Moved(rest, !Occurs(headings[0], start));
      MovedAscends(headings, rest, !Occurs(headings[0], start));
      hide Missing, Ascends, Moved;
      forall i: nat
        ensures i in at <==> IsMissing(headings, start, i)
      {
        MissingLater(headings, start, i);
        MovedHas(rest, !Occurs(headings[0], start), i);
      }
      MissingFirst(headings, start);
    }
  }

  lemma {:induction false} NoneMissing(start: string)
    ensures forall i: nat :: !IsMissing([], start, i)
  {
  }

  lemma {:induction false} MissingFirst(headings: seq<string>, start: string)
    requires headings != []
    ensures Missing(headings, start)
         == (if Occurs(headings[0], start) then [] else [headings[0]]) + Missing(headings[1..], start)
  {
  }

  lemma {:induction false} MissingLater(headings: seq<string>, start: string, i: nat)
    requires headings != []
    ensures IsMissing(headings, start, i)
       <==> if i == 0 then !Occurs(headings[0], start) else IsMissing(headings[1..], start, i - 1)
  {
    hide Occurs;
  }

  // Places moved one up, with 0 in front of them or not.
  function Moved(rest: seq<nat>, first: bool): seq<nat> {
    (if first then [0] else []) + seq(|rest|, j requires 0 <= j < |rest| => rest[j] + 1)
  }

  lemma {:induction false} MovedHas(rest: seq<nat>, first: bool, i: nat)
    ensures i in Moved(rest, first) <==> if i == 0 then first else i - 1 in rest
  {
    var at := Moved(rest, first);
    var skip := if first then 1 else 0;
    if i > 0 && i - 1 in rest {
      var j :| 0 <= j < |rest| && rest[j] == i - 1;
      assert at[skip + j] == i;
    }
  }

  lemma {:induction false} MovedAscends(headings: seq<string>, rest: seq<nat>, first: bool)
    requires headings != [] && Ascends(rest, |headings| - 1)
    ensures Ascends(Moved(rest, first), |headings|)
    ensures HeadingsAt(headings, Moved(rest, first))
         == (if first then [headings[0]] else []) + HeadingsAt(headings[1..], rest)
  {
  }

  function Contextuals(ws: seq<Window>): (texts: seq<string>)
    ensures |texts| == |ws| && forall k :: 0 <= k < |ws| ==> texts[k] == Contextual(ws[k])
  {
    seq(|ws|, k requires 0 <= k < |ws| => Contextual(ws[k]))
  }

  lemma {:induction false} PlainJoined(a: string, b: string)
    requires IsPlain(a) && IsPlain(b)
    ensures Strip(a + "\n\n" + b) == a + "\n\n" + b && IsPlain(a + "\n\n" + b)
  {
    StripFacts(a + "\n\n" + b);
  }

  // A merged chunk holds the whole text of each of its windows, in order.
  lemma {:induction false} GroupTextIsJoin(ws: seq<Window>, a: nat, b: nat)
    requires AllPlain(ws) && a < b <= |ws|
    ensures GroupText(ws, a, b) == Join(Contextuals(ws)[a..b], "\n\n") && IsPlain(GroupText(ws, a, b))
  {
    hide WithHeadingContext, Strip;
    ContextKeepsText(ws[b - 1]);
    var texts := Contextuals(ws);
    if b == a + 1 {
      assert texts[a..b] == [texts[a]];
    } else {
      GroupTextIsJoin(ws, a, b - 1);
      assert texts[a..b] == texts[a..b - 1] + [texts[b - 1]];
      JoinSnoc(texts[a..b - 1], texts[b - 1], "\n\n");
      PlainJoined(GroupText(ws, a, b - 1), texts[b - 1]);
    }
  }

  lemma {:induction false} OffsetsAscend(c: Chunker, ws: seq<Window>, a: nat, b: nat)
    requires a < b <= |ws|
    ensures Offset(c, ws, a) < Offset(c, ws, b)
  {
    hide WindowTokens;
    if a + 1 < b {
      OffsetsAscend(c, ws, a, b - 1);
    }
  }

  // The chunks of a window list whose texts are stripped and non-empty, counted
  // by a tokenizer that counts at least one token for text.
  ghost predicate ChunksFrom(c: Chunker, ws: seq<Window>, chunks: seq<Chunk>) {
    && AllPlain(ws) && CountsText(c)
    && Groups(Cuts(Openings(c, ws), |ws|), |ws|)
    && chunks == ChunksOf(c, ws, Cuts(Openings(c, ws), |ws|), |ws|)
  }

  // The windows of a chunk: the first one is large enough to open it, unless it
  // is the first of all; every other one is too small.
  lemma {:induction false} WindowsOfChunk(c: Chunker, ws: seq<Window>, cuts: seq<nat>, k: nat)
    requires cuts == Cuts(Openings(c, ws), |ws|) && k < |cuts|
    ensures cuts[k] < CutAfter(cuts, k, |ws|) <= |ws|
    ensures if k == 0 then cuts[k] == 0 else WindowTokens(c, ws[cuts[k]]) >= c.minChunkTokens
    ensures forall i :: cuts[k] < i < CutAfter(cuts, k, |ws|) ==> WindowTokens(c, ws[i]) < c.minChunkTokens
  {
    OpeningOfChunk(Openings(c, ws), |ws|, cuts, k);
    hide WindowTokens, Cuts, Openings;
    forall i | cuts[k] < i < CutAfter(cuts, k, |ws|)
      ensures WindowTokens(c, ws[i]) < c.minChunkTokens
    {
      assert !Openings(c, ws)[i];
    }
  }

  lemma {:induction false} OpeningOfChunk(opens: seq<bool>, n: nat, cuts: seq<nat>, k: nat)
    requires n <= |opens| && cuts == Cuts(opens, n) && k < |cuts| && opens[0]
    ensures cuts[k] < CutAfter(cuts, k, n) <= n && opens[cuts[k]] && (k == 0 <==> cuts[k] == 0)
    ensures forall i :: cuts[k] < i < CutAfter(cuts, k, n) ==> !opens[i]
  {
    CutsAreMarks(opens, n);
    CutsGroup(opens, n);
    MarksOpenGroups(opens, n, cuts, k);
    if k > 0 {
      CutsAscend(cuts, 0, k, n);
    }
  }

  // What chunk k says about its windows.
  lemma {:induction false} ChunkIsGroup(c: Chunker, ws: seq<Window>, chunks: seq<Chunk>, k: nat, cuts: seq<nat>)
    requires ChunksFrom(c, ws, chunks) && k < |chunks| && cuts == Cuts(Openings(c, ws), |ws|)
    ensures |cuts| == |chunks| && cuts[k] < CutAfter(cuts, k, |ws|) <= |ws|
    ensures chunks[k].index == k && chunks[k].headings == ws[cuts[k]].headings
    ensures chunks[k].text == Join(Contextuals(ws)[cuts[k]..CutAfter(cuts, k, |ws|)], "\n\n")
    ensures chunks[k].tokenCount == |c.encode(chunks[k].text)| >= 1
            && chunks[k].contentHash == c.hash(chunks[k].text)
    ensures chunks[k].kind == Content && chunks[k].sourceStart == chunks[k].sourceEnd == None
  {
    hide WindowTokens, WithHeadingContext;
    WindowsOfChunk(c, ws, cuts, k);
    GroupTextIsJoin(ws, cuts[k], CutAfter(cuts, k, |ws|));
  }

  // The chunks are the windows, each in exactly one chunk and in order.
  lemma {:induction false} ChunksPartitionWindows(c: Chunker, ws: seq<Window>, chunks: seq<Chunk>, cuts: seq<nat>)
    requires ChunksFrom(c, ws, chunks) && cuts == Cuts(Openings(c, ws), |ws|)
    ensures (chunks == []) <==> (ws == [])
    ensures ws != [] ==> cuts[0] == 0 && CutAfter(cuts, |cuts| - 1, |ws|) == |ws|
    ensures forall k :: 0 <= k < |chunks| - 1 ==> CutAfter(cuts, k, |ws|) == cuts[k + 1]
  {
    CutsAreMarks(Openings(c, ws), |ws|);
  }

  lemma {:induction false} ChunkTokens(c: Chunker, ws: seq<Window>, chunks: seq<Chunk>, k: nat, cuts: seq<nat>)
    requires ChunksFrom(c, ws, chunks) && k < |chunks| && cuts == Cuts(Openings(c, ws), |ws|)
    ensures |cuts| == |chunks| && cuts[k] < CutAfter(cuts, k, |ws|) <= |ws|
    ensures var last := CutAfter(cuts, k, |ws|) - 1;
            && (k + 1 < |cuts| ==> last + 1 == cuts[k + 1])
            && chunks[k].startToken == Offset(c, ws, cuts[k])
            && chunks[k].endToken == Offset(c, ws, last) + WindowTokens(c, ws[last])
  {
    hide WindowTokens, Offset, GroupText;
    assert cuts[k] < CutAfter(cuts, k, |ws|);
  }

  function Larger(a: int, b: int): int {
    if a < b then b else a
  }

  // Where the next window begins, against the end of window i.
  lemma {:induction false} OffsetAgainstEnd(c: Chunker, ws: seq<Window>, chunks: seq<Chunk>, i: nat)
    requires ChunksFrom(c, ws, chunks) && i < |ws|
    ensures var end := Offset(c, ws, i) + WindowTokens(c, ws[i]);
            && (Offset(c, ws, i + 1) <= end <==> c.overlapTokens >= 0)
            && Offset(c, ws, i + 1) == Larger(Offset(c, ws, i) + 1, end - c.overlapTokens)
  {
    hide WithHeadingContext;
    ContextKeepsText(ws[i]);
  }

  // Start offsets begin at 0 and ascend strictly.  No chunk starts behind the end
  // of the one before it, exactly when the configured overlap is not negative.
  lemma {:induction false} ChunkOffsets(c: Chunker, ws: seq<Window>, chunks: seq<Chunk>, k: nat)
    requires ChunksFrom(c, ws, chunks) && k < |chunks|
    ensures k == 0 ==> chunks[k].startToken == 0
    ensures k > 0 ==> chunks[k - 1].startToken < chunks[k].startToken
    ensures k > 0 ==> (chunks[k].startToken <= chunks[k - 1].endToken <==> c.overlapTokens >= 0)
  {
    var cuts := Cuts(Openings(c, ws), |ws|);
    ChunksPartitionWindows(c, ws, chunks, cuts);
    hide ChunksFrom, Cuts, Openings, CutAfter, WindowTokens;
    ChunkTokens(c, ws, chunks, k, cuts);
    if k > 0 {
      ChunkTokens(c, ws, chunks, k - 1, cuts);
      OffsetsAscend(c, ws, cuts[k - 1], cuts[k]);
      OffsetAgainstEnd(c, ws, chunks, cuts[k] - 1);
    }
  }

  // A chunk starts the overlap before the end of the one before it, but behind the
  // start of that one's last window.
  lemma {:induction false} ChunkStart(c: Chunker, ws: seq<Window>, chunks: seq<Chunk>, k: nat, cuts: seq<nat>)
    requires ChunksFrom(c, ws, chunks) && 0 < k < |chunks| && cuts == Cuts(Openings(c, ws), |ws|)
    ensures 0 <= cuts[k] - 1 < |ws|
    ensures chunks[k].startToken ==
            Larger(Offset(c, ws, cuts[k] - 1) + 1, chunks[k - 1].endToken - c.overlapTokens)
  {
    hide ChunksFrom, Cuts, Openings, CutAfter, WindowTokens;
    ChunkTokens(c, ws, chunks, k, cuts);
    ChunkTokens(c, ws, chunks, k - 1, cuts);
    OffsetAgainstEnd(c, ws, chunks, cuts[k] - 1);
  }

  // The windows and the chunks that `split` makes of a document.
  function WindowsOfDocument(c: Chunker, markdown: string): seq<Window> {
    var blocks := SplitBlocks(markdown);
    Rendered(c, blocks, Plan(Sizes(c, blocks), c.chunkTokens, c.overlapTokens))
  }

  function ChunksOfDocument(c: Chunker, markdown: string): seq<Chunk> {
    var ws := WindowsOfDocument(c, markdown);
    CutsGroup(Openings(c, ws), |ws|);
    ChunksOf(c, ws, Cuts(Openings(c, ws), |ws|), |ws|)
  }

  method Split(c: Chunker, markdown: string) returns (chunks: seq<Chunk>)
    ensures chunks == ChunksOfDocument(c, markdown)
  {
    var blocks := SplitMarkdownBlocks(markdown);
    var windows := SplitWindows(c, blocks);
    chunks := ToChunks(c, windows);
  }

  // Every document's chunks are a chunking of its windows as described above.
  lemma {:induction false} DocumentIsChunked(c: Chunker, markdown: string)
    requires CountsText(c)
    ensures ChunksFrom(c, WindowsOfDocument(c, markdown), ChunksOfDocument(c, markdown))
  {
    var ws := WindowsOfDocument(c, markdown);
    WindowsArePlain(c, markdown);
    CutsGroup(Openings(c, ws), |ws|);
  }

  // Numbering needs nothing of the tokenizer.
  lemma {:induction false} ChunksArePositional(c: Chunker, markdown: string)
    ensures Positional(ChunksOfDocument(c, markdown))
  {
    var ws := WindowsOfDocument(c, markdown);
    CutsGroup(Openings(c, ws), |ws|);
  }
}
