// Which lines of a document its blocks are made of, and how lines are told apart.
module BlockLines {
  import opened Text
  import opened Markdown
  import opened Headings

  // How the three kinds of line end are read.
  lemma {:induction false} CrLfBetween(a: string, b: string)
    requires '\r' !in a
    ensures WithoutCrLf(a + "\r\n" + b) == a + "\n" + WithoutCrLf(b)
  {
    var s := a + "\r\n" + b;
    if a == [] {
      assert s[2..] == b;
    } else {
      CrLfBetween(a[1..], b);
      assert s[1..] == a[1..] + "\r\n" + b && s[0] == a[0];
    }
  }

  lemma {:induction false} NoLineFeeds(s: string)
    requires '\n' !in s
    ensures WithoutCrLf(s) == s
  {
    if s != [] {
      NoLineFeeds(s[1..]);
    }
  }

  lemma {:induction false} CrConcat(a: string, b: string)
    ensures WithoutCr(a + b) == WithoutCr(a) + WithoutCr(b)
  {
    if a == [] {
      assert a + b == b;
    } else {
      CrConcat(a[1..], b);
      assert (a + b)[1..] == a[1..] + b;
    }
  }

  lemma {:induction false} NoReturns(s: string)
    requires '\r' !in s
    ensures WithoutCr(s) == s && WithoutCrLf(s) == s
  {
    if s != [] {
      NoReturns(s[1..]);
    }
  }

  ghost predicate AreLines(lines: seq<string>) {
    lines != [] && forall k :: 0 <= k < |lines| ==> '\n' !in lines[k] && '\r' !in lines[k]
  }

  lemma {:induction false} CrLfJoined(lines: seq<string>)
    requires AreLines(lines)
    ensures WithoutCr(WithoutCrLf(Join(lines, "\r\n"))) == Join(lines, "\n")
  {
    NoReturns(lines[0]);
    if |lines| > 1 {
      var rest := Join(lines[1..], "\r\n");
      CrLfJoined(lines[1..]);
      CrLfBetween(lines[0], rest);
      CrConcat(lines[0] + "\n", WithoutCrLf(rest));
      CrConcat(lines[0], "\n");
      assert WithoutCr("\n") == "\n" by {
        NoReturns("\n");
      }
    }
  }

  lemma {:induction false} CrJoined(lines: seq<string>)
    requires AreLines(lines)
    ensures '\n' !in Join(lines, "\r") && WithoutCr(Join(lines, "\r")) == Join(lines, "\n")
  {
    NoReturns(lines[0]);
    if |lines| > 1 {
      CrJoined(lines[1..]);
      CrConcat(lines[0] + "\r", Join(lines[1..], "\r"));
      CrConcat(lines[0], "\r");
      assert WithoutCr("\r") == "\n" by {
        assert "\r"[1..] == [];
      }
    }
  }

  // Lines are the same whichever of the three line ends stands between them, and so
  // are the blocks.
  lemma {:induction false} LineEndsDoNotMatter(lines: seq<string>)
    requires AreLines(lines)
    ensures Lines(Join(lines, "\n")) == Lines(Join(lines, "\r\n")) == Lines(Join(lines, "\r")) == lines
    ensures SplitBlocks(Join(lines, "\n")) == SplitBlocks(Join(lines, "\r\n")) == SplitBlocks(Join(lines, "\r"))
  {
    CrLfJoined(lines);
    CrJoined(lines);
    NoLineFeeds(Join(lines, "\r"));
    JoinChars(lines, "\n", '\r');
    NoReturns(Join(lines, "\n"));
    SplitJoin(lines, '\n');
    hide WithoutCr, WithoutCrLf, Split;
  }

  // A heading line: one to six hashes, whitespace, and something behind it.
  lemma {:induction false} HeadingIs(line: string, n: nat)
    requires n > 0
    ensures HeadingLevel(line) == n <==>
            && n <= 6 && n + 2 <= |line| && IsSpace(line[n]) && forall k :: 0 <= k < n ==> line[k] == '#'
  {
    HashesAre(line);
    if n < |line| && IsSpace(line[n]) && (forall k :: 0 <= k < n ==> line[k] == '#') {
      HashesOf(line, n);
    }
  }

  lemma {:induction false} HashesAre(line: string)
    ensures forall k :: 0 <= k < Hashes(line) ==> line[k] == '#'
    ensures Hashes(line) < |line| ==> line[Hashes(line)] != '#'
  {
    if line != [] && line[0] == '#' {
      HashesAre(line[1..]);
      assert forall k :: 0 < k < Hashes(line) ==> line[k] == line[1..][k - 1];
    }
  }

  ghost predicate FenceAt(line: string, i: nat) {
    i + 3 <= |line| && IsBlank(line[..i]) && (line[i..i + 3] == "```" || line[i..i + 3] == "~~~")
  }

  // A fence line: three backquotes or tildes, behind whitespace or at its start.
  lemma {:induction false} FenceIs(line: string)
    ensures IsFence(line) <==> exists i: nat :: FenceAt(line, i)
  {
    if IsBlank(line) {
      BlankStrips(line);
      if i: nat :| FenceAt(line, i) {
        MarkIsText(line, i);
      }
    } else {
      var l, r := Edges(line);
      StripTo(line, l, r);
      hide Strip;
      if IsFence(line) {
        assert line[l..r][..3] == line[l..l + 3];
        assert FenceAt(line, l);
      }
      if i: nat :| FenceAt(line, i) {
        MarkStartsCore(line, l, r, i);
      }
    }
  }

  lemma {:induction false} MarkIsText(line: string, i: nat)
    requires FenceAt(line, i)
    ensures !IsSpace(line[i]) && !IsSpace(line[i + 1]) && !IsSpace(line[i + 2])
  {
    assert line[i] == line[i..i + 3][0] && line[i + 1] == line[i..i + 3][1] && line[i + 2] == line[i..i + 3][2];
  }

  lemma {:induction false} MarkStartsCore(line: string, l: nat, r: nat, i: nat)
    requires Core(line, l, r) && FenceAt(line, i)
    ensures i == l && i + 3 <= r && line[l..r][..3] == line[i..i + 3]
  {
    MarkIsText(line, i);
  }

  // The characters that count as whitespace.
  lemma {:induction false} WhitespaceTable(c: char)
    ensures IsSpace(c) <==> c in {
      '\U{9}', '\U{a}', '\U{b}', '\U{c}', '\U{d}', '\U{1c}', '\U{1d}', '\U{1e}', '\U{1f}', ' ', '\U{85}', '\U{a0}',
      '\U{1680}', '\U{2000}', '\U{2001}', '\U{2002}', '\U{2003}', '\U{2004}', '\U{2005}', '\U{2006}', '\U{2007}',
      '\U{2008}', '\U{2009}', '\U{200a}', '\U{2028}', '\U{2029}', '\U{202f}', '\U{205f}', '\U{3000}'
    }
  {
  }

  // A line between blocks, and one that begins a block, both outside fences.
  predicate IsGap(lines: seq<string>, k: nat)
    requires k < |lines|
  {
    !FenceIsOpen(lines, k) && !IsFence(lines[k]) && HeadingLevel(lines[k]) == 0 && IsBlank(lines[k])
  }

  predicate BeginsBlock(lines: seq<string>, k: nat)
    requires k < |lines|
  {
    !FenceIsOpen(lines, k) && !IsFence(lines[k]) && HeadingLevel(lines[k]) > 0
  }

  // Lines lo..hi are consecutive lines of one block.
  ghost predicate IsRun(lines: seq<string>, lo: nat, hi: nat) {
    && lo <= hi <= |lines|
    && (lo < hi ==> !IsBlank(lines[lo]))
    && (forall k :: lo <= k < hi ==> !IsGap(lines, k))
    && (forall k :: lo < k < hi ==> !BeginsBlock(lines, k))
  }

  ghost predicate MadeOf(lines: seq<string>, block: Block, lo: nat, hi: nat) {
    && lo < hi && IsRun(lines, lo, hi) && block.text == Strip(Join(lines[lo..hi], "\n"))
    && (hi < |lines| ==> IsGap(lines, hi) || BeginsBlock(lines, hi))
  }

  ghost predicate Covered(lines: seq<string>, los: seq<nat>, his: seq<nat>, k: nat)
    requires |los| == |his| && k < |lines|
  {
    IsGap(lines, k) || exists j :: 0 <= j < |los| && los[j] <= k < his[j]
  }

  // The blocks are made of consecutive lines, one after the other, and the lines
  // before `s` that are in none of them are gaps.
  ghost predicate Partition(lines: seq<string>, blocks: seq<Block>, los: seq<nat>, his: seq<nat>, s: nat) {
    && |los| == |his| == |blocks| && s <= |lines|
    && (forall j :: 0 <= j < |los| ==> MadeOf(lines, blocks[j], los[j], his[j]) && his[j] <= s)
    && (forall j :: 0 < j < |los| ==> his[j - 1] <= los[j])
    && (forall k :: 0 <= k < s ==> Covered(lines, los, his, k))
  }

  lemma {:induction false} BufferHasText(lines: seq<string>, lo: nat, hi: nat)
    requires lo < hi <= |lines| && !IsBlank(lines[lo])
    ensures BufferText(lines[lo..hi]) != []
  {
    var joined := Join(lines[lo..hi], "\n");
    StripFacts(joined);
    assert lines[lo..hi][0] == lines[lo];
    assert joined[..|lines[lo]|] == lines[lo];
    var k: nat :| k < |lines[lo]| && !IsSpace(lines[lo][k]);
    assert joined[k] == lines[lo][k];
  }

  // A line that neither ends the open run nor begins a block joins it.
  lemma {:induction false} JoinsRun(lines: seq<string>, s: nat, n: nat)
    requires n < |lines| && IsRun(lines, s, n) && !IsGap(lines, n) && (s < n ==> !BeginsBlock(lines, n))
    requires s == n ==> !FenceIsOpen(lines, n)
    ensures IsRun(lines, s, n + 1)
  {
    if s == n {
      if IsFence(lines[n]) {
        FenceHasText(lines[n]);
      } else if HeadingLevel(lines[n]) > 0 {
        HeadingHasText(lines[n]);
      }
    }
    hide FenceIsOpen, IsFence, HeadingLevel;
  }

  lemma {:induction false} FenceHasText(line: string)
    requires IsFence(line)
    ensures !IsBlank(line)
  {
    if IsBlank(line) {
      BlankStrips(line);
    }
  }

  lemma {:induction false} HeadingHasText(line: string)
    requires HeadingLevel(line) > 0
    ensures !IsBlank(line)
  {
    HeadingIs(line, HeadingLevel(line));
    assert line[0] == '#';
  }

  // The scanner's state after n lines: the blocks so far, and the run that is open.
  ghost predicate ScannedTo(lines: seq<string>, n: nat, los: seq<nat>, his: seq<nat>, s: nat)
    requires n <= |lines|
  {
    && Partition(lines, After(lines, n).blocks, los, his, s)
    && IsRun(lines, s, n) && After(lines, n).buffer == lines[s..n]
    && (FenceIsOpen(lines, n) ==> s < n)
  }

  // Closing the open run before line n.
  lemma {:induction false} RunCloses(lines: seq<string>, n: nat, los: seq<nat>, his: seq<nat>, s: nat)
    returns (los': seq<nat>, his': seq<nat>)
    requires n <= |lines| && ScannedTo(lines, n, los, his, s)
    requires n < |lines| ==> IsGap(lines, n) || BeginsBlock(lines, n)
    ensures Partition(lines, Flushed(After(lines, n)).blocks, los', his', n)
  {
    hide FenceIsOpen, IsFence, HeadingLevel, IsGap, BeginsBlock, Strip;
    los', his' := los, his;
    var st := After(lines, n);
    hide After;
    if s < n {
      BufferHasText(lines, s, n);
      los', his' := los + [s], his + [n];
      CoveredBy(lines, los, his, s, n);
    } else {
      assert lines[s..n] == [];
      NothingBuffered();
    }
    hide BufferText;
  }

  lemma {:induction false} NothingBuffered()
    ensures BufferText([]) == []
  {
  }

  lemma {:induction false} CoveredBy(lines: seq<string>, los: seq<nat>, his: seq<nat>, s: nat, n: nat)
    requires |los| == |his| && s < n <= |lines| && forall k :: 0 <= k < s ==> Covered(lines, los, his, k)
    ensures forall k :: 0 <= k < n ==> Covered(lines, los + [s], his + [n], k)
  {
    hide IsGap;
    forall k | 0 <= k < n
      ensures Covered(lines, los + [s], his + [n], k)
    {
      if k < s && !IsGap(lines, k) {
        assert Covered(lines, los, his, k);
        var j :| 0 <= j < |los| && los[j] <= k < his[j];
        assert (los + [s])[j] <= k < (his + [n])[j];
      } else if k >= s {
        assert (los + [s])[|los|] <= k < (his + [n])[|los|];
      }
    }
  }

  // One line: a gap closes the open run, a heading closes it and opens another, and any
  // other line joins it.
  lemma {:induction false} LineStep(lines: seq<string>, m: nat)
    requires m < |lines|
    ensures var st, next := After(lines, m), After(lines, m + 1);
            if IsGap(lines, m) then next.blocks == Flushed(st).blocks && next.buffer == []
            else if BeginsBlock(lines, m) then next.blocks == Flushed(st).blocks && next.buffer == [lines[m]]
            else next.blocks == st.blocks && next.buffer == st.buffer + [lines[m]]
    ensures FenceIsOpen(lines, m + 1) <==> FenceIsOpen(lines, m) != IsFence(lines[m])
  {
    ScannerKeepsPath(lines, m);
    hide IsFence, HeadingLevel, HeadingTitle, BufferText, PathOf, IsBlank;
  }

  lemma {:induction false} NothingScanned(lines: seq<string>)
    ensures ScannedTo(lines, 0, [], [], 0)
  {
    assert lines[0..0] == [];
  }

  lemma {:induction false} ScansTo(lines: seq<string>, n: nat) returns (los: seq<nat>, his: seq<nat>, s: nat)
    requires n <= |lines|
    ensures ScannedTo(lines, n, los, his, s)
  {
    hide ScannedTo;
    if n == 0 {
      los, his, s := [], [], 0;
      NothingScanned(lines);
    } else {
      los, his, s := ScansTo(lines, n - 1);
      los, his, s := ScansOn(lines, n - 1, los, his, s);
    }
  }

  lemma {:induction false} ScansOn(lines: seq<string>, m: nat, los: seq<nat>, his: seq<nat>, s: nat)
    returns (los': seq<nat>, his': seq<nat>, s': nat)
    requires m < |lines| && ScannedTo(lines, m, los, his, s)
    ensures ScannedTo(lines, m + 1, los', his', s')
  {
    hide ScannedTo, IsGap, BeginsBlock;
    los', his', s' := los, his, s;
    if IsGap(lines, m) {
      los', his' := GapScans(lines, m, los, his, s);
      s' := m + 1;
    } else if BeginsBlock(lines, m) {
      los', his' := BeginScans(lines, m, los, his, s);
      s' := m;
    } else {
      JoinScans(lines, m, los, his, s);
    }
  }

  lemma {:induction false} GapScans(lines: seq<string>, m: nat, los: seq<nat>, his: seq<nat>, s: nat)
    returns (los': seq<nat>, his': seq<nat>)
    requires m < |lines| && ScannedTo(lines, m, los, his, s) && IsGap(lines, m)
    ensures ScannedTo(lines, m + 1, los', his', m + 1)
  {
    LineStep(lines, m);
    los', his' := RunCloses(lines, m, los, his, s);
    PartitionGrows(lines, Flushed(After(lines, m)).blocks, los', his', m);
    assert lines[m + 1..m + 1] == [] && !FenceIsOpen(lines, m + 1);
    hide After, Flushed, Partition, IsGap, BeginsBlock, FenceIsOpen;
  }

  lemma {:induction false} BeginScans(lines: seq<string>, m: nat, los: seq<nat>, his: seq<nat>, s: nat)
    returns (los': seq<nat>, his': seq<nat>)
    requires m < |lines| && ScannedTo(lines, m, los, his, s) && BeginsBlock(lines, m)
    ensures ScannedTo(lines, m + 1, los', his', m)
  {
    LineStep(lines, m);
    los', his' := RunCloses(lines, m, los, his, s);
    assert !FenceIsOpen(lines, m) && !IsGap(lines, m);
    JoinsRun(lines, m, m);
    assert lines[m..m + 1] == [lines[m]];
    hide After, Flushed, Partition, IsGap, BeginsBlock, FenceIsOpen, IsRun;
  }

  lemma {:induction false} JoinScans(lines: seq<string>, m: nat, los: seq<nat>, his: seq<nat>, s: nat)
    requires m < |lines| && ScannedTo(lines, m, los, his, s) && !IsGap(lines, m) && !BeginsBlock(lines, m)
    ensures ScannedTo(lines, m + 1, los, his, s)
  {
    LineStep(lines, m);
    JoinsRun(lines, s, m);
    SliceGrows(lines, s, m);
    hide After, Partition, IsGap, BeginsBlock, IsRun;
  }

  lemma {:induction false} SliceGrows(lines: seq<string>, s: nat, m: nat)
    requires s <= m < |lines|
    ensures lines[s..m + 1] == lines[s..m] + [lines[m]]
  {
  }

  lemma {:induction false} PartitionGrows(lines: seq<string>, blocks: seq<Block>, los: seq<nat>, his: seq<nat>, m: nat)
    requires Partition(lines, blocks, los, his, m) && m < |lines| && IsGap(lines, m)
    ensures Partition(lines, blocks, los, his, m + 1)
  {
    hide MadeOf, IsGap;
    assert Covered(lines, los, his, m);
  }

  // The blocks of a document are runs of its lines, in order and without overlap.  A
  // run begins with text, has no blank line and no further heading outside fences, and
  // ends before one or at the end; and every line outside the runs is blank and stands
  // outside fences.
  lemma {:induction false} BlocksAreLines(markdown: string) returns (los: seq<nat>, his: seq<nat>)
    ensures Partition(Lines(markdown), SplitBlocks(markdown), los, his, |Lines(markdown)|)
  {
    var lines := Lines(markdown);
    var s;
    los, his, s := ScansTo(lines, |lines|);
    los, his := RunCloses(lines, |lines|, los, his, s);
    AfterIsScan(lines, |lines|);
    assert lines[..|lines|] == lines;
    hide After, Partition;
  }
}
