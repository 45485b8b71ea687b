// The heading paths that split_markdown_blocks gives its blocks.
module Headings {
  import opened Markdown
  import opened Text

  datatype Heading = Heading(level: nat, title: string)

  function Fences(lines: seq<string>, n: nat): nat
    requires n <= |lines|
  {
    if n == 0 then 0 else Fences(lines, n - 1) + if IsFence(lines[n - 1]) then 1 else 0
  }

  // Whether a fence is open after the first n lines.
  predicate FenceIsOpen(lines: seq<string>, n: nat)
    requires n <= |lines|
  {
    n != 0 && FenceIsOpen(lines, n - 1) != IsFence(lines[n - 1])
  }

  // A fence is open after an odd number of fence lines.
  lemma {:induction false} OpenMeansOdd(lines: seq<string>, n: nat)
    requires n <= |lines|
    ensures FenceIsOpen(lines, n) <==> Fences(lines, n) % 2 == 1
  {
    if n == 0 {
    } else {
      OpenMeansOdd(lines, n - 1);
    }
  }

  // The headings among the first n lines that stand outside fences.
  function HeadingsIn(lines: seq<string>, n: nat): (hs: seq<Heading>)
    requires n <= |lines|
    ensures forall k :: 0 <= k < |hs| ==> 1 <= hs[k].level <= 6
  {
    if n == 0 then []
    else
      var line := lines[n - 1];
      if !FenceIsOpen(lines, n - 1) && !IsFence(line) && HeadingLevel(line) > 0
      then HeadingsIn(lines, n - 1) + [Heading(HeadingLevel(line), HeadingTitle(line))]
      else HeadingsIn(lines, n - 1)
  }

  // The path the scanner keeps after these headings.
  function PathOf(hs: seq<Heading>): seq<string> {
    if hs == [] then []
    else
      var last := hs[|hs| - 1];
      Deeper(PathOf(hs[..|hs| - 1]), last.level, last.title)
  }

  // The scanner after the first n lines.
  function After(lines: seq<string>, n: nat): Scan
    requires n <= |lines|
  {
    if n == 0 then StartScan() else ScanLine(After(lines, n - 1), lines[n - 1])
  }

  lemma {:induction false} AfterIsScan(lines: seq<string>, n: nat)
    requires n <= |lines|
    ensures After(lines, n) == ScanLines(StartScan(), lines[..n])
  {
    if n == 0 {
      assert lines[..0] == [];
    } else {
      AfterIsScan(lines, n - 1);
      ScanSnoc(StartScan(), lines[..n - 1], lines[n - 1]);
      assert lines[..n - 1] + [lines[n - 1]] == lines[..n];
    }
  }

  lemma {:induction false} ScannerKeepsPath(lines: seq<string>, n: nat)
    requires n <= |lines|
    ensures After(lines, n).headings == PathOf(HeadingsIn(lines, n))
    ensures After(lines, n).inFence == FenceIsOpen(lines, n)
  {
    hide IsFence, HeadingLevel, HeadingTitle, ScanLine, Deeper;
    if n == 0 {
    } else {
      ScannerKeepsPath(lines, n - 1);
      LineMovesPath(After(lines, n - 1), lines[n - 1]);
      PathSnoc(HeadingsIn(lines, n - 1), Heading(HeadingLevel(lines[n - 1]), HeadingTitle(lines[n - 1])));
    }
  }

  lemma {:induction false} LineMovesPath(st: Scan, line: string)
    ensures var next := ScanLine(st, line);
            && next.inFence == (st.inFence != IsFence(line))
            && next.headings == if !st.inFence && !IsFence(line) && HeadingLevel(line) > 0
                                then Deeper(st.headings, HeadingLevel(line), HeadingTitle(line)) else st.headings
  {
  }

  lemma {:induction false} PathSnoc(hs: seq<Heading>, h: Heading)
    ensures PathOf(hs + [h]) == Deeper(PathOf(hs), h.level, h.title)
  {
    assert (hs + [h])[..|hs|] == hs;
  }

  // The headings that enclose a place: scanning back, the nearest heading of a
  // level smaller than `below`, and before it the chain that encloses it in turn.
  function Chain(hs: seq<Heading>, below: nat): seq<string> {
    if hs == [] then []
    else
      var init, last := hs[..|hs| - 1], hs[|hs| - 1];
      if last.level < below then Chain(init, last.level) + [last.title] else Chain(init, below)
  }

  const ANY_LEVEL := 7

  lemma {:induction false} ChainsNest(hs: seq<Heading>, low: nat, high: nat)
    requires low <= high
    ensures Chain(hs, low) <= Chain(hs, high)
  {
    if hs == [] {
    } else {
      var init, last := hs[..|hs| - 1], hs[|hs| - 1];
      if last.level < low {
      } else if last.level < high {
        ChainsNest(init, low, last.level);
      } else {
        ChainsNest(init, low, high);
      }
    }
  }

  // A heading of a level falls in place when the headings above its level that
  // are still open are as many as the path has room for.
  ghost predicate FallsInPlace(before: seq<Heading>, level: nat) {
    var open, above := |Chain(before, ANY_LEVEL)|, |Chain(before, level)|;
    above == if open < level - 1 then open else level - 1
  }

  ghost predicate FitsAt(hs: seq<Heading>, n: nat) {
    n < |hs| && FallsInPlace(hs[..n], hs[n].level)
  }

  ghost predicate ExactAt(hs: seq<Heading>, n: nat) {
    n <= |hs| && PathOf(hs[..n]) == Chain(hs[..n], ANY_LEVEL)
  }

  ghost predicate WellNested(hs: seq<Heading>) {
    forall n :: 0 <= n < |hs| ==> FitsAt(hs, n)
  }

  ghost predicate PathsAreChains(hs: seq<Heading>) {
    forall n :: 0 <= n <= |hs| ==> ExactAt(hs, n)
  }

  lemma {:induction false} OneHeading(before: seq<Heading>, last: Heading)
    requires PathOf(before) == Chain(before, ANY_LEVEL) && 1 <= last.level <= 6
    ensures PathOf(before + [last]) == Chain(before + [last], ANY_LEVEL) <==> FallsInPlace(before, last.level)
  {
    var hs := before + [last];
    assert hs[..|hs| - 1] == before;
    ChainsNest(before, last.level, ANY_LEVEL);
    var kept := if last.level <= |PathOf(before)| + 1 then PathOf(before)[..last.level - 1] else PathOf(before);
    assert PathOf(hs) == kept + [last.title];
    assert Chain(hs, ANY_LEVEL) == Chain(before, last.level) + [last.title];
    if FallsInPlace(before, last.level) {
      assert kept == Chain(before, last.level);
    } else {
      assert |PathOf(hs)| != |Chain(hs, ANY_LEVEL)|;
    }
  }

  lemma {:induction false} NextExact(hs: seq<Heading>, n: nat)
    requires n < |hs| && ExactAt(hs, n) && 1 <= hs[n].level <= 6
    ensures ExactAt(hs, n + 1) <==> FitsAt(hs, n)
  {
    OneHeading(hs[..n], hs[n]);
    assert hs[..n] + [hs[n]] == hs[..n + 1];
  }

  lemma {:induction false} PathsExactUpTo(hs: seq<Heading>, n: nat)
    requires n <= |hs| && forall k :: 0 <= k < |hs| ==> 1 <= hs[k].level <= 6
    ensures (forall m :: 0 <= m <= n ==> ExactAt(hs, m)) <==> (forall m :: 0 <= m < n ==> FitsAt(hs, m))
  {
    if n == 0 {
      assert hs[..0] == [];
      assert ExactAt(hs, 0);
    } else {
      PathsExactUpTo(hs, n - 1);
      if ExactAt(hs, n - 1) {
        NextExact(hs, n - 1);
      }
    }
  }

  // The path is the chain of enclosing headings at every place of a document
  // exactly when every heading falls in place.
  lemma {:induction false} PathsExact(hs: seq<Heading>)
    requires forall k :: 0 <= k < |hs| ==> 1 <= hs[k].level <= 6
    ensures PathsAreChains(hs) <==> WellNested(hs)
  {
    PathsExactUpTo(hs, |hs|);
  }

  function Depth(hs: seq<Heading>): nat {
    if hs == [] then 0 else hs[|hs| - 1].level
  }

  // No heading is more than one level deeper than the one before it.
  ghost predicate SkipsNoLevel(hs: seq<Heading>) {
    forall n :: 0 <= n < |hs| ==> 1 <= hs[n].level <= Depth(hs[..n]) + 1
  }

  lemma {:induction false} ChainCounts(hs: seq<Heading>, below: nat)
    requires SkipsNoLevel(hs) && 1 <= below
    ensures |Chain(hs, below)| == if below <= Depth(hs) then below - 1 else Depth(hs)
  {
    if hs == [] {
    } else {
      var init, last := hs[..|hs| - 1], hs[|hs| - 1];
      assert hs[..|init|] == init && hs[|init|] == last;
      forall n | 0 <= n < |init|
        ensures 1 <= init[n].level <= Depth(init[..n]) + 1
      {
        assert hs[..n] == init[..n] && hs[n] == init[n];
      }
      ChainCounts(init, if last.level < below then last.level else below);
    }
  }

  // A document that skips no level has correct heading paths throughout.
  lemma {:induction false} NoSkipsNoErrors(hs: seq<Heading>)
    requires SkipsNoLevel(hs) && forall k :: 0 <= k < |hs| ==> hs[k].level <= 6
    ensures PathsAreChains(hs)
  {
    forall n | 0 <= n < |hs|
      ensures FitsAt(hs, n)
    {
      forall k | 0 <= k < n
        ensures 1 <= hs[..n][k].level <= Depth(hs[..n][..k]) + 1
      {
        assert hs[..n][..k] == hs[..k] && hs[..n][k] == hs[k];
      }
      ChainCounts(hs[..n], ANY_LEVEL);
      ChainCounts(hs[..n], hs[n].level);
      assert n > 0 ==> hs[..n][n - 1] == hs[n - 1];
    }
    PathsExact(hs);
  }

  // A level-3 heading first and a level-2 heading next: the path of the second
  // still starts with the first, which does not enclose it.
  lemma {:induction false} SkippedLevelMisleads(a: string, b: string)
    ensures PathOf([Heading(3, a), Heading(2, b)]) == [a, b]
    ensures Chain([Heading(3, a), Heading(2, b)], ANY_LEVEL) == [b]
  {
    var hs := [Heading(3, a), Heading(2, b)];
    assert hs[..1] == [Heading(3, a)] && hs[..1][..0] == [];
    assert PathOf(hs[..1]) == [a];
    assert Chain(hs[..1], 2) == Chain(hs[..1][..0], 2) == [];
  }

  // The same on a document of two lines, such as "### a" and "## b": its second
  // block is told to stand under the first heading.
  lemma {:induction false} SkippedLevelInDocument(a: char, b: char)
    requires !IsSpace(a) && !IsSpace(b)
    ensures var first, second := "### " + [a], "## " + [b];
            var document := first + ['\n'] + second;
            && SplitBlocks(document) == [Block(first, [[a]]), Block(second, [[a], [b]])]
            && Lines(document) == [first, second]
            && HeadingsIn(Lines(document), 2) == [Heading(3, [a]), Heading(2, [b])]
            && Chain(HeadingsIn(Lines(document), 2), ANY_LEVEL) == [[b]]
  {
    var first, second := "### " + [a], "## " + [b];
    TwoLines(first, second);
    HeadingLine(first, 3, a);
    HeadingLine(second, 2, b);
    hide Lines, IsFence, HeadingLevel, HeadingTitle, BufferText, Chain;
    TwoHeadings(first, second, [a], [b]);
    SkippedLevelMisleads([a], [b]);
  }

  lemma {:induction false} TwoLines(first: string, second: string)
    requires '\n' !in first && '\n' !in second && '\r' !in first && '\r' !in second
    ensures Lines(first + ['\n'] + second) == [first, second]
  {
    NoCarriageReturns(first + ['\n'] + second);
    SplitWithout(first, '\n');
    SplitWithout(second, '\n');
    SplitConcat(first, second, '\n');
  }

  // A document that is a level-3 heading and then a level-2 heading.
  lemma {:induction false} TwoHeadings(first: string, second: string, a: string, b: string)
    requires !IsFence(first) && HeadingLevel(first) == 3 && HeadingTitle(first) == a
    requires !IsFence(second) && HeadingLevel(second) == 2 && HeadingTitle(second) == b
    requires BufferText([first]) == first != [] && BufferText([second]) == second != []
    ensures Flushed(ScanLines(StartScan(), [first, second])).blocks == [Block(first, [a]), Block(second, [a, b])]
    ensures HeadingsIn([first, second], 2) == [Heading(3, a), Heading(2, b)]
  {
    var lines := [first, second];
    hide IsFence, HeadingLevel, HeadingTitle;
    assert BufferText([]) == [];
    hide BufferText;
    assert ScanLine(StartScan(), first) == Scan([], [a], [first], false);
    assert [a][..1] == [a];
    assert ScanLine(Scan([], [a], [first], false), second) == Scan([Block(first, [a])], [a, b], [second], false);
    assert lines[..1] == [first] && [first][..0] == [];
    assert ScanLines(StartScan(), [first]) == ScanLine(StartScan(), first);
    assert HeadingsIn(lines, 1) == [Heading(3, a)];
  }

  // A line of n hashes, a space and one character is a heading of level n with that
  // title, and is stripped as it is.
  lemma {:induction false} HeadingLine(line: string, n: nat, c: char)
    requires 1 <= n <= 6 && |line| == n + 2 && line[n] == ' ' && line[n + 1] == c && !IsSpace(c)
    requires forall k :: 0 <= k < n ==> line[k] == '#'
    ensures HeadingLevel(line) == n && HeadingTitle(line) == [c] && !IsFence(line) && BufferText([line]) == line
  {
    HashesOf(line, n);
    StripFacts(line);
    StripTo(line[n..], 1, 2);
  }

  lemma {:induction false} HashesOf(line: string, n: nat)
    requires n < |line| && line[n] != '#' && forall k :: 0 <= k < n ==> line[k] == '#'
    ensures Hashes(line) == n
  {
    if n > 0 {
      HashesOf(line[1..], n - 1);
    }
  }

  // For every document: a path has at most six entries and ends with the latest
  // heading outside a fence.
  lemma {:induction false} PathShape(hs: seq<Heading>)
    requires forall k :: 0 <= k < |hs| ==> 1 <= hs[k].level <= 6
    ensures |PathOf(hs)| <= 6
    ensures hs != [] ==> PathOf(hs) != [] && PathOf(hs)[|PathOf(hs)| - 1] == hs[|hs| - 1].title
  {
  }

  // Block j of a document was emitted after its first n lines: it is what the
  // buffer held there, with the heading path of that place.
  ghost predicate EmittedAfter(lines: seq<string>, j: nat, n: nat, block: Block) {
    && n <= |lines|
    && |After(lines, n).blocks| == j
    && block.text == BufferText(After(lines, n).buffer)
    && block.headings == PathOf(HeadingsIn(lines, n))
  }

  lemma {:induction false} PlaceOfEarlierBlock(lines: seq<string>, m: nat, j: nat) returns (n: nat)
    requires m <= |lines| && j < |After(lines, m).blocks|
    ensures EmittedAfter(lines, j, n, After(lines, m).blocks[j])
  {
    if m > 0 {
      LineEmits(After(lines, m - 1), lines[m - 1], j);
      if j < |After(lines, m - 1).blocks| {
        n := PlaceOfEarlierBlock(lines, m - 1, j);
      } else {
        n := m - 1;
        HeldBlock(lines, n);
      }
    }
  }

  // What the buffer holds after n lines, with the path there.
  lemma {:induction false} HeldBlock(lines: seq<string>, n: nat)
    requires n <= |lines|
    ensures EmittedAfter(lines, |After(lines, n).blocks|, n,
                         Block(BufferText(After(lines, n).buffer), After(lines, n).headings))
  {
    ScannerKeepsPath(lines, n);
  }

  // A line emits at most one block, after those there are.
  lemma {:induction false} LineEmits(st: Scan, line: string, j: nat)
    requires j < |ScanLine(st, line).blocks|
    ensures j < |st.blocks| ==> ScanLine(st, line).blocks[j] == st.blocks[j]
    ensures j >= |st.blocks| ==>
              j == |st.blocks| && ScanLine(st, line).blocks[j] == Block(BufferText(st.buffer), st.headings)
  {
  }

  lemma {:induction false} PlaceOfBlock(lines: seq<string>, j: nat) returns (n: nat)
    requires j < |Flushed(ScanLines(StartScan(), lines)).blocks|
    ensures EmittedAfter(lines, j, n, Flushed(ScanLines(StartScan(), lines)).blocks[j])
  {
    AfterIsScan(lines, |lines|);
    assert lines[..|lines|] == lines;
    if j < |After(lines, |lines|).blocks| {
      n := PlaceOfEarlierBlock(lines, |lines|, j);
    } else {
      n := |lines|;
      HeldBlock(lines, n);
    }
  }

  // A block carries the path of the place where it ends; the path has at most six
  // entries, and in a well-nested document it is the chain of enclosing headings.
  lemma {:induction false} BlockHeadings(markdown: string, j: nat) returns (n: nat)
    requires j < |SplitBlocks(markdown)|
    ensures EmittedAfter(Lines(markdown), j, n, SplitBlocks(markdown)[j])
    ensures |SplitBlocks(markdown)[j].headings| <= 6
    ensures WellNested(HeadingsIn(Lines(markdown), |Lines(markdown)|)) ==>
      SplitBlocks(markdown)[j].headings == Chain(HeadingsIn(Lines(markdown), n), ANY_LEVEL)
  {
    var lines := Lines(markdown);
    n := PlaceOfBlock(lines, j);
    PathShape(HeadingsIn(lines, n));
    var hs := HeadingsIn(lines, |lines|);
    if WellNested(hs) {
      PathsExact(hs);
      HeadingsOfPrefix(lines, n, |lines|);
      assert ExactAt(hs, |HeadingsIn(lines, n)|);
      assert hs[..|HeadingsIn(lines, n)|] == HeadingsIn(lines, n);
    }
  }

  lemma {:induction false} HeadingsOfPrefix(lines: seq<string>, n: nat, m: nat)
    requires n <= m <= |lines|
    ensures HeadingsIn(lines, n) <= HeadingsIn(lines, m)
  {
    if n < m {
      HeadingsOfPrefix(lines, n, m - 1);
    }
  }
}
