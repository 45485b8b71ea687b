// What the windows of MarkdownChunker.split cover and how large they get.
module WindowCover {
  import opened Markdown
  import LargeBlock
  import opened Windows

  // overlap_tail with a positive overlap keeps at least the last block; the tail
  // fits the overlap or is that one block, and no longer tail would fit.
  lemma {:induction false} TailFacts(sizes: seq<nat>, lo: nat, from: nat, hi: nat, overlap: int)
    requires lo <= from <= hi <= |sizes| && lo < hi && overlap > 0
    requires from < hi ==> Total(sizes, from, hi) <= overlap || from == hi - 1
    ensures var start := TailFrom(sizes, lo, from, hi, overlap);
            && start < hi
            && (Total(sizes, start, hi) <= overlap || start == hi - 1)
            && (start > lo ==> Total(sizes, start - 1, hi) > overlap)
  {
    if from > lo && (from == hi || Total(sizes, from, hi) + sizes[from - 1] <= overlap) {
      TailFacts(sizes, lo, from - 1, hi, overlap);
    }
  }

  // The part of a span that no earlier span covers: Lo..Hi.
  function Lo(span: Span): nat {
    match span case Run(_, first, _) => first case Large(at) => at
  }

  function Hi(span: Span): nat {
    match span case Run(_, _, hi) => hi case Large(at) => at + 1
  }

  // Where the span after this one begins, when that is a run.
  function Carry(sizes: seq<nat>, overlap: int, span: Span): nat {
    match span
    case Run(lo, _, hi) => if lo <= hi <= |sizes| then TailStart(sizes, lo, hi, overlap) else hi
    case Large(at) => at + 1
  }

  // A run ends in at least one new block, has no large block, and exceeds the
  // limit only when it is a carried-over tail and one new block.
  ghost predicate IsRun(sizes: seq<nat>, chunk: nat, lo: nat, first: nat, hi: nat) {
    && lo <= first < hi <= |sizes|
    && (forall j :: lo <= j < hi ==> sizes[j] <= chunk)
    && (Total(sizes, lo, hi) <= chunk || (lo < first && hi == first + 1))
  }

  ghost predicate IsSpan(sizes: seq<nat>, chunk: nat, span: Span) {
    match span
    case Run(lo, first, hi) => IsRun(sizes, chunk, lo, first, hi)
    case Large(at) => at < |sizes| && sizes[at] > chunk
  }

  // Spans follow each other without gap; a run carries over exactly the tail of
  // the run before it; a run ends only where the next block does not fit.
  ghost predicate Follows(sizes: seq<nat>, chunk: nat, overlap: int, before: Span, span: Span) {
    && Lo(span) == Hi(before) < |sizes|
    && (span.Run? ==> span.lo == Carry(sizes, overlap, before))
    && (before.Run? && before.lo <= before.hi ==> Total(sizes, before.lo, before.hi) + sizes[before.hi] > chunk)
  }

  ghost predicate Chained(sizes: seq<nat>, chunk: nat, overlap: int, spans: seq<Span>) {
    && (forall i :: 0 <= i < |spans| ==> IsSpan(sizes, chunk, spans[i]))
    && (forall i :: 0 < i < |spans| ==> Follows(sizes, chunk, overlap, spans[i - 1], spans[i]))
    && (spans != [] ==> Lo(spans[0]) == 0 && (spans[0].Run? ==> spans[0].lo == 0))
  }

  lemma {:induction false} ChainedSnoc(sizes: seq<nat>, chunk: nat, overlap: int, spans: seq<Span>, span: Span)
    requires Chained(sizes, chunk, overlap, spans) && IsSpan(sizes, chunk, span)
    requires spans != [] ==> Follows(sizes, chunk, overlap, spans[|spans| - 1], span)
    requires spans == [] ==> Lo(span) == 0 && (span.Run? ==> span.lo == 0)
    ensures Chained(sizes, chunk, overlap, spans + [span])
  {
  }

  // What the loop of `split` knows after k blocks: the run it is building would
  // follow the spans it has closed.
  ghost predicate Building(sizes: seq<nat>, chunk: nat, overlap: int, p: Planner, k: nat) {
    && Chained(sizes, chunk, overlap, p.spans)
    && p.lo <= p.first <= k <= |sizes|
    && (p.first < k ==> IsRun(sizes, chunk, p.lo, p.first, k))
    && (p.first == k ==> p.lo == k)
    && (p.spans == [] ==> p.lo == p.first == 0)
    && (p.spans != [] ==>
          var before := p.spans[|p.spans| - 1];
          && p.first == Hi(before) && p.lo == Carry(sizes, overlap, before)
          && (before.Run? ==> p.first < k && Total(sizes, before.lo, before.hi) + sizes[before.hi] > chunk))
  }

  lemma {:induction false} ClosingKeeps(sizes: seq<nat>, chunk: nat, overlap: int, p: Planner, k: nat)
    requires Building(sizes, chunk, overlap, p, k)
    ensures Chained(sizes, chunk, overlap, p.spans + Closing(p.lo, p.first, k))
  {
    if p.lo < k {
      ChainedSnoc(sizes, chunk, overlap, p.spans, Run(p.lo, p.first, k));
    } else {
      assert p.spans + [] == p.spans;
    }
  }

  lemma {:induction false} LargeKeeps(sizes: seq<nat>, chunk: nat, overlap: int, p: Planner, k: nat)
    requires Building(sizes, chunk, overlap, p, k) && k < |sizes| && sizes[k] > chunk
    ensures Building(sizes, chunk, overlap, PlanStep(sizes, chunk, overlap, p, k), k + 1)
  {
    ClosingKeeps(sizes, chunk, overlap, p, k);
    ChainedSnoc(sizes, chunk, overlap, p.spans + Closing(p.lo, p.first, k), Large(k));
  }

  lemma {:induction false} OverflowKeeps(sizes: seq<nat>, chunk: nat, overlap: int, p: Planner, k: nat)
    requires Building(sizes, chunk, overlap, p, k) && k < |sizes| && sizes[k] <= chunk
    requires p.lo < k && Total(sizes, p.lo, k) + sizes[k] > chunk
    ensures Building(sizes, chunk, overlap, PlanStep(sizes, chunk, overlap, p, k), k + 1)
  {
    ClosingKeeps(sizes, chunk, overlap, p, k);
    TotalLast(sizes, TailStart(sizes, p.lo, k, overlap), k + 1);
  }

  lemma {:induction false} JoinKeeps(sizes: seq<nat>, chunk: nat, overlap: int, p: Planner, k: nat)
    requires Building(sizes, chunk, overlap, p, k) && k < |sizes| && sizes[k] <= chunk
    requires p.lo == k || Total(sizes, p.lo, k) + sizes[k] <= chunk
    ensures Building(sizes, chunk, overlap, p, k + 1)
  {
    TotalLast(sizes, p.lo, k + 1);
  }

  lemma {:induction false} StepKeeps(sizes: seq<nat>, chunk: nat, overlap: int, p: Planner, k: nat)
    requires Building(sizes, chunk, overlap, p, k) && k < |sizes|
    ensures Building(sizes, chunk, overlap, PlanStep(sizes, chunk, overlap, p, k), k + 1)
  {
    if sizes[k] > chunk {
      LargeKeeps(sizes, chunk, overlap, p, k);
    } else if p.lo < k && Total(sizes, p.lo, k) + sizes[k] > chunk {
      OverflowKeeps(sizes, chunk, overlap, p, k);
    } else {
      JoinKeeps(sizes, chunk, overlap, p, k);
    }
  }

  lemma {:induction false} PlannedBuilds(sizes: seq<nat>, chunk: nat, overlap: int, k: nat)
    requires k <= |sizes|
    ensures Building(sizes, chunk, overlap, Planned(sizes, chunk, overlap, k), k)
  {
    if k > 0 {
      PlannedBuilds(sizes, chunk, overlap, k - 1);
      StepKeeps(sizes, chunk, overlap, Planned(sizes, chunk, overlap, k - 1), k - 1);
    }
  }

  // The windows of any block list are chained, from the first block to the last.
  lemma {:induction false} WindowsAreChained(sizes: seq<nat>, chunk: nat, overlap: int)
    ensures var plan := Plan(sizes, chunk, overlap);
            && Chained(sizes, chunk, overlap, plan)
            && (if plan == [] then sizes == [] else Hi(plan[|plan| - 1]) == |sizes|)
  {
    PlannedBuilds(sizes, chunk, overlap, |sizes|);
    ClosingKeeps(sizes, chunk, overlap, Planned(sizes, chunk, overlap, |sizes|), |sizes|);
  }

  // The blocks that a span adds, and what the first n spans add.
  function Added(blocks: seq<Block>, span: Span): seq<Block> {
    if Lo(span) <= Hi(span) <= |blocks| then blocks[Lo(span)..Hi(span)] else []
  }

  function AddedUpTo(blocks: seq<Block>, plan: seq<Span>, n: nat): seq<Block>
    requires n <= |plan|
  {
    if n == 0 then [] else AddedUpTo(blocks, plan, n - 1) + Added(blocks, plan[n - 1])
  }

  lemma {:induction false} AddedSoFar(blocks: seq<Block>, sizes: seq<nat>, chunk: nat, overlap: int, plan: seq<Span>,
                                      n: nat)
    requires Chained(sizes, chunk, overlap, plan) && |sizes| == |blocks| && 0 < n <= |plan|
    ensures Hi(plan[n - 1]) <= |blocks| && AddedUpTo(blocks, plan, n) == blocks[..Hi(plan[n - 1])]
  {
    assert IsSpan(sizes, chunk, plan[n - 1]);
    if n > 1 {
      AddedSoFar(blocks, sizes, chunk, overlap, plan, n - 1);
      assert Follows(sizes, chunk, overlap, plan[n - 2], plan[n - 1]);
      assert blocks[..Lo(plan[n - 1])] + Added(blocks, plan[n - 1]) == blocks[..Hi(plan[n - 1])];
    } else {
      assert AddedUpTo(blocks, plan, 0) == [];
    }
  }

  // Dropping what each window carries over gives back every block once, in order.
  lemma {:induction false} WindowsCoverBlocks(c: LargeBlock.Chunker, blocks: seq<Block>)
    ensures var plan := Plan(Sizes(c, blocks), c.chunkTokens, c.overlapTokens);
            AddedUpTo(blocks, plan, |plan|) == blocks
  {
    var plan := Plan(Sizes(c, blocks), c.chunkTokens, c.overlapTokens);
    WindowsAreChained(Sizes(c, blocks), c.chunkTokens, c.overlapTokens);
    if plan != [] {
      AddedSoFar(blocks, Sizes(c, blocks), c.chunkTokens, c.overlapTokens, plan, |plan|);
    }
  }

  ghost predicate AllWithin(sizes: seq<nat>, plan: seq<Span>, limit: nat) {
    forall i :: 0 <= i < |plan| && plan[i].Run? && plan[i].lo <= plan[i].hi <= |sizes| ==>
      Total(sizes, plan[i].lo, plan[i].hi) <= limit
  }

  // A run over the limit is a tail and one block, neither over the limit itself.
  lemma {:induction false} TailAndOne(sizes: seq<nat>, chunk: nat, overlap: int, before: Span, span: Span)
    requires IsSpan(sizes, chunk, before) && IsSpan(sizes, chunk, span) && Follows(sizes, chunk, overlap, before, span)
    requires span.Run? && overlap <= chunk && Total(sizes, span.lo, span.hi) > chunk
    ensures overlap > 0 && Total(sizes, span.lo, span.hi) <= 2 * chunk
  {
    TailFacts(sizes, before.lo, span.first, span.first, overlap);
    TotalLast(sizes, span.lo, span.hi);
  }

  // No window sums to more than twice the limit, for an overlap up to the limit,
  // and none to more than the limit without an overlap.
  lemma {:induction false} WindowsWithinTwice(sizes: seq<nat>, chunk: nat, overlap: int)
    requires overlap <= chunk
    ensures AllWithin(sizes, Plan(sizes, chunk, overlap), 2 * chunk)
    ensures overlap <= 0 ==> AllWithin(sizes, Plan(sizes, chunk, overlap), chunk)
  {
    hide Plan, Follows;
    var plan := Plan(sizes, chunk, overlap);
    WindowsAreChained(sizes, chunk, overlap);
    forall i | 0 <= i < |plan| && plan[i].Run?
      ensures Total(sizes, plan[i].lo, plan[i].hi) <= if overlap <= 0 then chunk else 2 * chunk
    {
      if Total(sizes, plan[i].lo, plan[i].hi) > chunk {
        FirstHasNoTail(sizes, chunk, overlap, plan, i);
        TailAndOne(sizes, chunk, overlap, plan[i - 1], plan[i]);
      }
    }
  }

  lemma {:induction false} FirstHasNoTail(sizes: seq<nat>, chunk: nat, overlap: int, plan: seq<Span>, i: nat)
    requires Chained(sizes, chunk, overlap, plan) && i < |plan| && plan[i].Run? && plan[i].lo <= plan[i].hi <= |sizes|
    requires Total(sizes, plan[i].lo, plan[i].hi) > chunk
    ensures i > 0 && IsSpan(sizes, chunk, plan[i - 1]) && IsSpan(sizes, chunk, plan[i])
    ensures Follows(sizes, chunk, overlap, plan[i - 1], plan[i])
  {
  }

  // For a positive limit, "no window exceeds it" holds of every block list just
  // when nothing is carried over: two blocks of the limit's size are joined.
  lemma {:induction false} LimitKeptOnlyWithoutOverlap(chunk: nat, overlap: int)
    requires 0 < chunk
    ensures (forall sizes: seq<nat> :: AllWithin(sizes, Plan(sizes, chunk, overlap), chunk)) <==> overlap <= 0
  {
    if overlap <= 0 {
      forall sizes: seq<nat>
        ensures AllWithin(sizes, Plan(sizes, chunk, overlap), chunk)
      {
        WindowsWithinTwice(sizes, chunk, overlap);
      }
    } else {
      var sizes: seq<nat> := [chunk, chunk];
      assert Total(sizes, 1, 1) == 0 && Total(sizes, 0, 1) == chunk && Total(sizes, 0, 2) == 2 * chunk;
      assert Planned(sizes, chunk, overlap, 1) == Planner([], 0, 0);
      assert TailStart(sizes, 0, 1, overlap) == 0;
      assert Planned(sizes, chunk, overlap, 2) == Planner([Run(0, 0, 1)], 0, 1);
      assert Plan(sizes, chunk, overlap)[1] == Run(0, 1, 2);
    }
  }
}
