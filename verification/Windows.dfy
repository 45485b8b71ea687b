// MarkdownChunker.split and overlap_tail of chunking.py: windows over the block
// list.  The tokenizer is any function; counts need not add up over joins.
module Windows {
  import opened Text
  import opened Markdown
  import opened LargeBlock

  datatype Window = Window(text: string, headings: seq<string>)

  function CountTokens(c: Chunker, text: string): nat {
    |c.encode(text)|
  }

  function Sizes(c: Chunker, blocks: seq<Block>): (sizes: seq<nat>)
    ensures |sizes| == |blocks|
    ensures forall k :: 0 <= k < |blocks| ==> sizes[k] == CountTokens(c, blocks[k].text)
  {
    seq(|blocks|, k requires 0 <= k < |blocks| => CountTokens(c, blocks[k].text))
  }

  // The sum of the counts of blocks lo..hi.
  function Total(sizes: seq<nat>, lo: nat, hi: nat): nat
    requires lo <= hi <= |sizes|
    decreases hi - lo
  {
    if lo == hi then 0 else sizes[lo] + Total(sizes, lo + 1, hi)
  }

  lemma {:induction false} TotalLast(sizes: seq<nat>, lo: nat, hi: nat)
    requires lo < hi <= |sizes|
    ensures Total(sizes, lo, hi) == Total(sizes, lo, hi - 1) + sizes[hi - 1]
    decreases hi - lo
  {
    if lo + 1 < hi {
      TotalLast(sizes, lo + 1, hi);
    }
  }

  // Where the carried-over tail of the run lo..hi begins; `from` is the first
  // block selected so far.
  function TailFrom(sizes: seq<nat>, lo: nat, from: nat, hi: nat, overlap: int): (start: nat)
    requires lo <= from <= hi <= |sizes|
    ensures lo <= start <= from
  {
    if from == lo then lo
    else if from < hi && Total(sizes, from, hi) + sizes[from - 1] > overlap then from
    else TailFrom(sizes, lo, from - 1, hi, overlap)
  }

  function TailStart(sizes: seq<nat>, lo: nat, hi: nat, overlap: int): (start: nat)
    requires lo <= hi <= |sizes|
    ensures lo <= start <= hi
  {
    if overlap <= 0 then hi else TailFrom(sizes, lo, hi, hi, overlap)
  }

  // A window is a run of ordinary blocks lo..hi, of which lo..first are carried
  // over from the window before; a large block stands alone.
  datatype Span = Run(lo: nat, first: nat, hi: nat) | Large(at: nat)

  function Closing(lo: nat, first: nat, hi: nat): seq<Span> {
    if lo < hi then [Run(lo, first, hi)] else []
  }

  // The spans closed so far; the blocks from lo on are current, and those before
  // `first` were carried over.
  datatype Planner = Planner(spans: seq<Span>, lo: nat, first: nat)

  function PlanStep(sizes: seq<nat>, chunk: nat, overlap: int, p: Planner, k: nat): (next: Planner)
    requires p.lo <= k < |sizes|
    ensures next.lo <= k + 1
  {
    if sizes[k] > chunk then Planner(p.spans + Closing(p.lo, p.first, k) + [Large(k)], k + 1, k + 1)
    else if p.lo < k && Total(sizes, p.lo, k) + sizes[k] > chunk then
      Planner(p.spans + [Run(p.lo, p.first, k)], TailStart(sizes, p.lo, k, overlap), k)
    else p
  }

  // What the first k blocks lead to.
  function Planned(sizes: seq<nat>, chunk: nat, overlap: int, k: nat): (p: Planner)
    requires k <= |sizes|
    ensures p.lo <= k
  {
    if k == 0 then Planner([], 0, 0)
    else PlanStep(sizes, chunk, overlap, Planned(sizes, chunk, overlap, k - 1), k - 1)
  }

  function Plan(sizes: seq<nat>, chunk: nat, overlap: int): seq<Span> {
    var p := Planned(sizes, chunk, overlap, |sizes|);
    p.spans + Closing(p.lo, p.first, |sizes|)
  }

  predicate Fits(span: Span, n: nat) {
    match span case Run(lo, _, hi) => lo < hi <= n case Large(at) => at < n
  }

  function WindowOf(current: seq<Block>): Window
    requires current != []
  {
    Window(JoinBlocks(current), current[|current| - 1].headings)
  }

  // The windows of a span.
  function WindowsOf(c: Chunker, blocks: seq<Block>, span: Span): seq<Window> {
    if !Fits(span, |blocks|) then []
    else match span
      case Run(lo, _, hi) => [WindowOf(blocks[lo..hi])]
      case Large(at) => PieceWindows(LargeBlockPieces(c, blocks[at]))
  }

  function PieceWindows(pieces: seq<Block>): (windows: seq<Window>)
    ensures |windows| == |pieces|
  {
    seq(|pieces|, k requires 0 <= k < |pieces| => Window(pieces[k].text, pieces[k].headings))
  }

  // The windows of the first n spans.
  function RenderedUpTo(c: Chunker, blocks: seq<Block>, plan: seq<Span>, n: nat): seq<Window>
    requires n <= |plan|
  {
    if n == 0 then [] else RenderedUpTo(c, blocks, plan, n - 1) + WindowsOf(c, blocks, plan[n - 1])
  }

  function Rendered(c: Chunker, blocks: seq<Block>, plan: seq<Span>): seq<Window> {
    RenderedUpTo(c, blocks, plan, |plan|)
  }

  lemma {:induction false} RenderedPrefix(c: Chunker, blocks: seq<Block>, plan: seq<Span>, span: Span, n: nat)
    requires n <= |plan|
    ensures RenderedUpTo(c, blocks, plan + [span], n) == RenderedUpTo(c, blocks, plan, n)
  {
    if n > 0 {
      RenderedPrefix(c, blocks, plan, span, n - 1);
    }
  }

  lemma {:induction false} RenderedSnoc(c: Chunker, blocks: seq<Block>, plan: seq<Span>, span: Span)
    ensures Rendered(c, blocks, plan + [span]) == Rendered(c, blocks, plan) + WindowsOf(c, blocks, span)
  {
    RenderedPrefix(c, blocks, plan, span, |plan|);
  }

  // The window that closing the current blocks appends, if there are any.
  function Closed(current: seq<Block>): seq<Window> {
    if current != [] then [WindowOf(current)] else []
  }

  lemma {:induction false} RenderedClosing(c: Chunker, blocks: seq<Block>, plan: seq<Span>, lo: nat, first: nat,
                                           hi: nat)
    requires lo <= hi <= |blocks|
    ensures Rendered(c, blocks, plan + Closing(lo, first, hi)) == Rendered(c, blocks, plan) + Closed(blocks[lo..hi])
  {
    if lo < hi {
      RenderedSnoc(c, blocks, plan, Run(lo, first, hi));
    } else {
      assert plan + [] == plan;
    }
  }

  method OverlapTail(c: Chunker, blocks: seq<Block>) returns (selected: seq<Block>, total: nat)
    ensures var start := TailStart(Sizes(c, blocks), 0, |blocks|, c.overlapTokens);
            selected == blocks[start..] && total == Total(Sizes(c, blocks), start, |blocks|)
  {
    hide CountTokens;
    if c.overlapTokens <= 0 {
      return [], 0;
    }
    ghost var sizes := Sizes(c, blocks);
    selected, total := [], 0;
    var k := |blocks|;
    while k > 0
      invariant 0 <= k <= |blocks|
      invariant selected == blocks[k..] && total == Total(sizes, k, |blocks|)
      invariant TailFrom(sizes, 0, k, |blocks|, c.overlapTokens) == TailStart(sizes, 0, |blocks|, c.overlapTokens)
    {
      var tokens := CountTokens(c, blocks[k - 1].text);
      if selected != [] && total + tokens > c.overlapTokens {
        break;
      }
      selected := [blocks[k - 1]] + selected;
      total := total + tokens;
      k := k - 1;
    }
  }

  lemma {:induction false} TotalShift(sizes: seq<nat>, inner: seq<nat>, lo: nat, a: nat, b: nat)
    requires a <= b <= |inner| && lo + |inner| <= |sizes| && inner == sizes[lo..lo + |inner|]
    ensures Total(inner, a, b) == Total(sizes, lo + a, lo + b)
    decreases b - a
  {
    if a < b {
      TotalShift(sizes, inner, lo, a + 1, b);
    }
  }

  lemma {:induction false} TailShift(sizes: seq<nat>, inner: seq<nat>, lo: nat, from: nat, n: nat, overlap: int)
    requires from <= n == |inner| && lo + n <= |sizes| && inner == sizes[lo..lo + n]
    ensures lo + TailFrom(inner, 0, from, n, overlap) == TailFrom(sizes, lo, lo + from, lo + n, overlap)
  {
    if from > 0 {
      TotalShift(sizes, inner, lo, from, n);
      TailShift(sizes, inner, lo, from - 1, n, overlap);
    }
  }

  // The tail of a run, selected inside the run or inside the block list.
  lemma {:induction false} TailOfRun(sizes: seq<nat>, inner: seq<nat>, lo: nat, hi: nat, overlap: int)
    requires lo <= hi <= |sizes| && inner == sizes[lo..hi]
    ensures lo + TailStart(inner, 0, hi - lo, overlap) == TailStart(sizes, lo, hi, overlap)
    ensures Total(inner, TailStart(inner, 0, hi - lo, overlap), hi - lo) ==
            Total(sizes, TailStart(sizes, lo, hi, overlap), hi)
  {
    TailShift(sizes, inner, lo, hi - lo, hi - lo, overlap);
    TotalShift(sizes, inner, lo, TailStart(inner, 0, hi - lo, overlap), hi - lo);
  }

  lemma {:induction false} SliceSnoc<T>(s: seq<T>, lo: nat, k: nat)
    requires lo <= k < |s|
    ensures s[lo..k] + [s[k]] == s[lo..k + 1]
  {
  }

  lemma {:induction false} SliceOfSlice<T>(s: seq<T>, lo: nat, k: nat, start: nat)
    requires lo + start <= k <= |s|
    ensures s[lo..k][start..] == s[lo + start..k]
  {
  }

  // The state of the loop in `split` after k blocks.
  ghost predicate AtBlock(c: Chunker, blocks: seq<Block>, sizes: seq<nat>, k: nat, p: Planner,
                          current: seq<Block>, currentTokens: nat, windows: seq<Window>)
  {
    && k <= |blocks| == |sizes|
    && p == Planned(sizes, c.chunkTokens, c.overlapTokens, k)
    && current == blocks[p.lo..k]
    && currentTokens == Total(sizes, p.lo, k)
    && windows == Rendered(c, blocks, p.spans)
  }

  lemma {:induction false} LargeStep(c: Chunker, blocks: seq<Block>, sizes: seq<nat>, k: nat, p: Planner, next: Planner,
                  current: seq<Block>, currentTokens: nat, windows: seq<Window>)
    requires AtBlock(c, blocks, sizes, k, p, current, currentTokens, windows)
    requires k < |blocks| && sizes[k] > c.chunkTokens && next == PlanStep(sizes, c.chunkTokens, c.overlapTokens, p, k)
    ensures AtBlock(c, blocks, sizes, k + 1, next, [], 0,
                    windows + Closed(current) + PieceWindows(LargeBlockPieces(c, blocks[k])))
  {
    RenderedClosing(c, blocks, p.spans, p.lo, p.first, k);
    RenderedSnoc(c, blocks, p.spans + Closing(p.lo, p.first, k), Large(k));
  }

  lemma {:induction false} SizesOfRun(c: Chunker, blocks: seq<Block>, run: seq<Block>, lo: nat, k: nat)
    requires lo <= k <= |blocks| && run == blocks[lo..k]
    ensures Sizes(c, run) == Sizes(c, blocks)[lo..k]
  {
  }

  // What overlap_tail selects from the run lo..k, in terms of the block list.
  lemma {:induction false} OverlapOfRun(c: Chunker, blocks: seq<Block>, run: seq<Block>, lo: nat, k: nat, inner: nat,
                                        start: nat)
    requires lo <= k <= |blocks| && run == blocks[lo..k]
    requires inner == TailStart(Sizes(c, run), 0, |run|, c.overlapTokens)
    requires start == TailStart(Sizes(c, blocks), lo, k, c.overlapTokens)
    ensures run[inner..] == blocks[start..k] && Total(Sizes(c, run), inner, |run|) == Total(Sizes(c, blocks), start, k)
  {
    hide CountTokens;
    SizesOfRun(c, blocks, run, lo, k);
    TailOfRun(Sizes(c, blocks), Sizes(c, run), lo, k, c.overlapTokens);
    SliceOfSlice(blocks, lo, k, inner);
  }

  lemma {:induction false} ClosingStep(c: Chunker, blocks: seq<Block>, sizes: seq<nat>, k: nat, p: Planner,
                                       next: Planner,
                    current: seq<Block>, currentTokens: nat, windows: seq<Window>, selected: seq<Block>, total: nat)
    requires AtBlock(c, blocks, sizes, k, p, current, currentTokens, windows)
    requires k < |blocks| && sizes[k] <= c.chunkTokens && next == PlanStep(sizes, c.chunkTokens, c.overlapTokens, p, k)
    requires current != [] && currentTokens + sizes[k] > c.chunkTokens
    requires selected == blocks[next.lo..k] && total == Total(sizes, next.lo, k)
    ensures AtBlock(c, blocks, sizes, k + 1, next, selected + [blocks[k]], total + sizes[k], windows + Closed(current))
  {
    hide Rendered, TailStart, JoinBlocks, LargeBlockPieces, Closed;
    assert Closing(p.lo, p.first, k) == [Run(p.lo, p.first, k)];
    RenderedClosing(c, blocks, p.spans, p.lo, p.first, k);
    TotalLast(sizes, next.lo, k + 1);
    SliceSnoc(blocks, next.lo, k);
  }

  lemma {:induction false} JoiningStep(c: Chunker, blocks: seq<Block>, sizes: seq<nat>, k: nat, p: Planner,
                                       next: Planner,
                    current: seq<Block>, currentTokens: nat, windows: seq<Window>)
    requires AtBlock(c, blocks, sizes, k, p, current, currentTokens, windows)
    requires k < |blocks| && sizes[k] <= c.chunkTokens && next == PlanStep(sizes, c.chunkTokens, c.overlapTokens, p, k)
    requires current == [] || currentTokens + sizes[k] <= c.chunkTokens
    ensures AtBlock(c, blocks, sizes, k + 1, next, current + [blocks[k]], currentTokens + sizes[k], windows)
  {
    TotalLast(sizes, p.lo, k + 1);
    SliceSnoc(blocks, p.lo, k);
  }

  method SplitWindows(c: Chunker, blocks: seq<Block>) returns (windows: seq<Window>)
    ensures windows == Rendered(c, blocks, Plan(Sizes(c, blocks), c.chunkTokens, c.overlapTokens))
  {
    hide Strip, JoinBlocks, LargeBlockPieces, WindowsOf, PieceWindows;
    windows := [];
    var current: seq<Block>, currentTokens: nat := [], 0;
    ghost var sizes, p := Sizes(c, blocks), Planner([], 0, 0);
    for k := 0 to |blocks|
      invariant AtBlock(c, blocks, sizes, k, p, current, currentTokens, windows)
    {
      var block := blocks[k];
      var tokens := CountTokens(c, block.text);
      ghost var next := PlanStep(sizes, c.chunkTokens, c.overlapTokens, p, k);
      if tokens > c.chunkTokens {
        LargeStep(c, blocks, sizes, k, p, next, current, currentTokens, windows);
        if current != [] {
          windows := windows + [WindowOf(current)];
        }
        var pieces := SplitLargeBlock(c, block);
        windows := windows + PieceWindows(pieces);
        current, currentTokens, p := [], 0, next;
        continue;
      }
      if current != [] && currentTokens + tokens > c.chunkTokens {
        OverlapOfRun(c, blocks, current, p.lo, k, TailStart(Sizes(c, current), 0, |current|, c.overlapTokens), next.lo);
        var selected, total := OverlapTail(c, current);
        ClosingStep(c, blocks, sizes, k, p, next, current, currentTokens, windows, selected, total);
        windows := windows + [WindowOf(current)];
        current, currentTokens := selected, total;
      } else {
        JoiningStep(c, blocks, sizes, k, p, next, current, currentTokens, windows);
      }
      current := current + [block];
      currentTokens := currentTokens + tokens;
      p := next;
    }
    RenderedClosing(c, blocks, p.spans, p.lo, p.first, |blocks|);
    if current != [] {
      windows := windows + [WindowOf(current)];
    }
  }
}
