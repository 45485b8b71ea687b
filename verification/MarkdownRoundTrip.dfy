// Splitting what join_blocks printed gives the blocks back.
module MarkdownRoundTrip {
  import opened Text
  import opened Markdown

  // Scanning these lines into a buffer that is not empty never flushes it.
  ghost predicate Stays(lines: seq<string>, inFence: bool) {
    lines == [] ||
    var init, last := lines[..|lines| - 1], lines[|lines| - 1];
    && Stays(init, inFence)
    && (IsFence(last) || FenceAfter(init, inFence) || (HeadingLevel(last) == 0 && !IsBlank(last)))
  }

  ghost function FenceAfter(lines: seq<string>, inFence: bool): bool {
    if lines == [] then inFence
    else
      var before := FenceAfter(lines[..|lines| - 1], inFence);
      if IsFence(lines[|lines| - 1]) then !before else before
  }

  // Lines that fill one buffer, from an empty one outside fences.
  ghost predicate OneBlock(lines: seq<string>) {
    lines != [] && !IsBlank(lines[0]) && Stays(lines[1..], IsFence(lines[0]))
  }

  ghost predicate Balanced(lines: seq<string>)
    requires lines != []
  {
    !FenceAfter(lines[1..], IsFence(lines[0]))
  }

  // The text of a block: scanned by itself it is one block again.
  ghost predicate IsBlockText(text: string) {
    text != [] && IsStripped(text) && '\r' !in text && OneBlock(Split(text, '\n'))
  }

  ghost predicate IsClosedText(text: string) {
    IsBlockText(text) && Balanced(Split(text, '\n'))
  }

  lemma {:induction false} FenceIsNotBlank(line: string)
    requires IsFence(line)
    ensures !IsBlank(line)
  {
    StripFacts(line);
  }

  // Trimming a line at its edges keeps what the scanner sees of it, except that
  // a heading may vanish at its right edge or appear at its left.
  lemma {:induction false} TrimmedLine(line: string)
    ensures IsBlank(StripLeft(line)) <==> IsBlank(line)
    ensures IsBlank(StripRight(line)) <==> IsBlank(line)
    ensures IsFence(StripLeft(line)) <==> IsFence(line)
    ensures IsFence(StripRight(line)) <==> IsFence(line)
    ensures HeadingLevel(StripRight(line)) > 0 ==> HeadingLevel(line) > 0
  {
    if IsBlank(line) {
      BlankStrips(line);
      BlankStrips([]);
    } else {
      var l, r := Edges(line);
      StripTo(line, l, r);
      HashesOfPrefix(line, r);
      assert !IsSpace(line[l..][0]) && !IsSpace(line[..r][r - 1]);
    }
  }

  lemma {:induction false} HashesOfPrefix(line: string, n: nat)
    requires n <= |line|
    ensures Hashes(line[..n]) <= Hashes(line)
    ensures Hashes(line[..n]) < n ==> Hashes(line[..n]) == Hashes(line)
  {
    if n > 0 && line[0] == '#' {
      assert line[..n][1..] == line[1..][..n - 1];
      HashesOfPrefix(line[1..], n - 1);
    }
  }

  // Scanning lines that stay in the buffer.
  lemma {:induction false} ScanStays(st: Scan, lines: seq<string>)
    requires Stays(lines, st.inFence)
    ensures ScanLines(st, lines) == st.(buffer := st.buffer + lines, inFence := FenceAfter(lines, st.inFence))
  {
    if lines == [] {
      assert st.buffer + lines == st.buffer;
    } else {
      var init, last := lines[..|lines| - 1], lines[|lines| - 1];
      ScanStays(st, init);
      assert st.buffer + lines == (st.buffer + init) + [last];
    }
  }

  lemma {:induction false} ScanConcat(st: Scan, a: seq<string>, b: seq<string>)
    ensures ScanLines(st, a + b) == ScanLines(ScanLines(st, a), b)
  {
    hide ScanLine;
    if b == [] {
      assert a + b == a;
    } else {
      var init, last := b[..|b| - 1], b[|b| - 1];
      ScanConcat(st, a, init);
      ScanSnoc(st, a + init, last);
      assert a + b == (a + init) + [last];
    }
  }

  lemma {:induction false} FirstLine(st: Scan, line: string)
    requires st.buffer == [] && !st.inFence && !IsBlank(line)
    ensures var next := ScanLine(st, line);
            next.blocks == st.blocks && next.buffer == [line] && next.inFence == IsFence(line)
  {
    BlankStrips([]);
  }

  lemma {:induction false} ScanOneBlock(st: Scan, lines: seq<string>)
    requires st.buffer == [] && !st.inFence && OneBlock(lines)
    ensures var out := ScanLines(st, lines);
            out.blocks == st.blocks && out.buffer == lines && out.inFence == !Balanced(lines)
  {
    FirstLine(st, lines[0]);
    assert [lines[0]][..0] == [];
    assert ScanLines(st, [lines[0]]) == ScanLine(ScanLines(st, []), lines[0]);
    ScanConcat(st, [lines[0]], lines[1..]);
    assert lines == [lines[0]] + lines[1..];
    ScanStays(ScanLine(st, lines[0]), lines[1..]);
  }

  // Reading back: a stripped text is the text of its own lines.
  lemma {:induction false} TextOfLines(text: string)
    requires IsStripped(text)
    ensures BufferText(Split(text, '\n')) == text
  {
    JoinSplit(text, '\n');
    StripFacts(text);
  }

  // Every text is one block, and every text but the last has balanced fences.
  ghost predicate Printable(texts: seq<string>) {
    && (forall k :: 0 <= k < |texts| ==> IsBlockText(texts[k]))
    && (forall k :: 0 <= k < |texts| - 1 ==> IsClosedText(texts[k]))
  }

  function Interleaved(texts: seq<string>): seq<string>
    requires texts != []
  {
    if |texts| == 1 then Split(texts[0], '\n') else Split(texts[0], '\n') + [[]] + Interleaved(texts[1..])
  }

  lemma {:induction false} LinesOfPrinted(texts: seq<string>)
    requires texts != []
    ensures Split(Join(texts, "\n\n"), '\n') == Interleaved(texts)
  {
    if |texts| > 1 {
      SplitJoinOnce(texts[0], Join(texts[1..], "\n\n"), '\n');
      assert ['\n', '\n'] == "\n\n";
      LinesOfPrinted(texts[1..]);
    }
  }

  // One text, and the blank line that ends it.
  lemma {:induction false} ScanText(st: Scan, text: string)
    requires st.buffer == [] && !st.inFence && IsBlockText(text)
    ensures Texts(Flushed(ScanLines(st, Split(text, '\n'))).blocks) == Texts(st.blocks) + [text]
    ensures IsClosedText(text) ==>
      var out := ScanLines(st, Split(text, '\n') + [[]]);
      out.buffer == [] && !out.inFence && Texts(out.blocks) == Texts(st.blocks) + [text]
  {
    var lines := Split(text, '\n');
    ScanOneBlock(st, lines);
    TextOfLines(text);
    assert Flushed(ScanLines(st, lines)).blocks == st.blocks + [Block(text, ScanLines(st, lines).headings)];
    if IsClosedText(text) {
      assert (lines + [[]])[..|lines|] == lines;
      BlankStrips([]);
    }
  }

  lemma {:induction false} ScanPrinted(st: Scan, texts: seq<string>)
    requires texts != [] && Printable(texts) && st.buffer == [] && !st.inFence
    ensures Texts(Flushed(ScanLines(st, Interleaved(texts))).blocks) == Texts(st.blocks) + texts
    decreases |texts|
  {
    ScanText(st, texts[0]);
    if |texts| == 1 {
      assert texts == [texts[0]];
    } else {
      var next := ScanLines(st, Split(texts[0], '\n') + [[]]);
      ScanPrinted(next, texts[1..]);
      ScanConcat(st, Split(texts[0], '\n') + [[]], Interleaved(texts[1..]));
      Regroup(Texts(st.blocks), texts);
    }
  }

  lemma {:induction false} Regroup(before: seq<string>, texts: seq<string>)
    requires texts != []
    ensures (before + [texts[0]]) + texts[1..] == before + texts
  {
  }

  lemma {:induction false} PrintedIsStripped(texts: seq<string>)
    requires texts != [] && forall k :: 0 <= k < |texts| ==> texts[k] != [] && IsStripped(texts[k])
    ensures Join(texts, "\n\n") != [] && IsStripped(Join(texts, "\n\n"))
  {
    if |texts| > 1 {
      PrintedIsStripped(texts[1..]);
    }
  }

  // Splitting what was printed gives the texts back.
  lemma {:induction false} SplitOfJoin(blocks: seq<Block>)
    requires Printable(Texts(blocks))
    ensures Texts(SplitBlocks(JoinBlocks(blocks))) == Texts(blocks)
  {
    var texts := Texts(blocks);
    var printed := Join(texts, "\n\n");
    StripFacts(printed);
    JoinChars(texts, "\n\n", '\r');
    if texts == [] {
      NoCarriageReturns([]);
      BlankStrips([]);
      var none: seq<string> := [[]];
      assert Lines([]) == none && none[..0] == [];
      assert ScanLines(StartScan(), none) == ScanLine(StartScan(), []) == StartScan();
    } else {
      PrintedIsStripped(texts);
      NoCarriageReturns(printed);
      LinesOfPrinted(texts);
      ScanPrinted(StartScan(), texts);
      assert Texts([]) + texts == texts;
    }
  }

  // What the scanner holds between two lines: nothing, or one block begun.
  ghost predicate BufferIsOneBlock(st: Scan) {
    if st.buffer == [] then !st.inFence
    else
      && OneBlock(st.buffer) && st.inFence == !Balanced(st.buffer)
      && (forall k :: 0 <= k < |st.buffer| ==> '\n' !in st.buffer[k] && '\r' !in st.buffer[k])
  }

  lemma {:induction false} StaysOn(lines: seq<string>, inFence: bool, line: string)
    requires Stays(lines, inFence)
    requires IsFence(line) || FenceAfter(lines, inFence) || (HeadingLevel(line) == 0 && !IsBlank(line))
    ensures Stays(lines + [line], inFence)
    ensures FenceAfter(lines + [line], inFence) == (FenceAfter(lines, inFence) != IsFence(line))
  {
    assert (lines + [line])[..|lines|] == lines;
  }

  ghost predicate IsLine(line: string) {
    '\n' !in line && '\r' !in line
  }

  lemma {:induction false} BufferGrows(st: Scan, line: string, inFence: bool)
    requires BufferIsOneBlock(st) && IsLine(line) && st.buffer != []
    requires IsFence(line) || st.inFence || (HeadingLevel(line) == 0 && !IsBlank(line))
    requires inFence == (st.inFence != IsFence(line))
    ensures BufferIsOneBlock(st.(buffer := st.buffer + [line], inFence := inFence))
  {
    StaysOn(st.buffer[1..], IsFence(st.buffer[0]), line);
    assert (st.buffer + [line])[1..] == st.buffer[1..] + [line];
  }

  lemma {:induction false} BufferStarts(st: Scan, line: string)
    requires IsLine(line) && !IsBlank(line)
    ensures BufferIsOneBlock(st.(buffer := [line], inFence := IsFence(line)))
  {
  }

  lemma {:induction false} ScanKeepsBuffer(st: Scan, line: string)
    requires BufferIsOneBlock(st) && IsLine(line)
    ensures BufferIsOneBlock(ScanLine(st, line))
  {
    if IsFence(line) {
      FenceIsNotBlank(line);
    }
    var next := ScanLine(st, line);
    if next.buffer == [line] {
      if !IsFence(line) && HeadingLevel(line) > 0 {
        assert line[0] == '#';
      }
      BufferStarts(next, line);
    } else if next.buffer != [] {
      BufferGrows(next.(buffer := st.buffer, inFence := st.inFence), line, next.inFence);
    }
  }

  // The right edge of a block: blank lines at its end can only stand in a fence
  // that was never closed.
  lemma {:induction false} TrimEnd(lines: seq<string>) returns (trimmed: seq<string>)
    requires OneBlock(lines) && forall k :: 0 <= k < |lines| ==> '\n' !in lines[k]
    ensures OneBlock(trimmed) && Balanced(trimmed) == Balanced(lines)
    ensures forall k :: 0 <= k < |trimmed| ==> '\n' !in trimmed[k]
    ensures StripRight(Join(lines, "\n")) == Join(trimmed, "\n")
    decreases |lines|
  {
    var init, last := lines[..|lines| - 1], lines[|lines| - 1];
    if |lines| == 1 {
      TrimmedLine(last);
      trimmed := [StripRight(last)];
      LineOfStripRight(last);
    } else {
      assert lines == init + [last];
      if IsBlank(last) {
        DropBlank(init, last);
        trimmed := TrimEnd(init);
      } else {
        TrimLast(init, last);
        trimmed := init + [StripRight(last)];
      }
    }
  }

  lemma {:induction false} DropBlank(init: seq<string>, last: string)
    requires init != [] && OneBlock(init + [last]) && IsBlank(last)
    ensures OneBlock(init) && Balanced(init) == Balanced(init + [last])
    ensures StripRight(Join(init + [last], "\n")) == StripRight(Join(init, "\n"))
  {
    assert (init + [last])[1..] == init[1..] + [last] && (init[1..] + [last])[..|init| - 1] == init[1..];
    BlankIsNoFence(last);
    DropJoined(init, last);
  }

  lemma {:induction false} DropJoined(init: seq<string>, last: string)
    requires init != [] && IsBlank(last)
    ensures StripRight(Join(init + [last], "\n")) == StripRight(Join(init, "\n"))
  {
    JoinSnoc(init, last, "\n");
    StripRightTail(Join(init, "\n"), "\n" + last);
    assert Join(init, "\n") + "\n" + last == Join(init, "\n") + ("\n" + last);
  }

  lemma {:induction false} BlankIsNoFence(line: string)
    requires IsBlank(line)
    ensures !IsFence(line)
  {
    BlankStrips(line);
  }

  lemma {:induction false} TrimLast(init: seq<string>, last: string)
    requires init != [] && OneBlock(init + [last]) && !IsBlank(last)
    requires forall k :: 0 <= k < |init| ==> '\n' !in init[k]
    requires '\n' !in last
    ensures var trimmed := init + [StripRight(last)];
            && OneBlock(trimmed) && Balanced(trimmed) == Balanced(init + [last])
            && (forall k :: 0 <= k < |trimmed| ==> '\n' !in trimmed[k])
            && StripRight(Join(init + [last], "\n")) == Join(trimmed, "\n")
  {
    var lines, trimmed := init + [last], init + [StripRight(last)];
    TrimmedLine(last);
    LineOfStripRight(last);
    assert lines[1..] == init[1..] + [last] && lines[1..][..|init| - 1] == init[1..];
    assert trimmed[1..] == init[1..] + [StripRight(last)];
    StaysOn(init[1..], IsFence(init[0]), StripRight(last));
    StaysOn(init[1..], IsFence(init[0]), last);
    TrimJoined(init, last);
  }

  lemma {:induction false} TrimJoined(init: seq<string>, last: string)
    requires init != [] && !IsBlank(last)
    ensures StripRight(Join(init + [last], "\n")) == Join(init + [StripRight(last)], "\n")
  {
    JoinSnoc(init, last, "\n");
    JoinSnoc(init, StripRight(last), "\n");
    StripRightTail(Join(init, "\n") + "\n", last);
  }

  lemma {:induction false} LineOfStripRight(line: string)
    ensures forall c :: c in StripRight(line) ==> c in line
  {
    if IsBlank(line) {
      BlankStrips(line);
    } else {
      var l, r := Edges(line);
      StripTo(line, l, r);
    }
  }

  // The left edge of a block: its first line is not blank.
  lemma {:induction false} TrimStart(lines: seq<string>) returns (trimmed: seq<string>)
    requires OneBlock(lines) && forall k :: 0 <= k < |lines| ==> '\n' !in lines[k]
    ensures OneBlock(trimmed) && Balanced(trimmed) == Balanced(lines)
    ensures forall k :: 0 <= k < |trimmed| ==> '\n' !in trimmed[k]
    ensures StripLeft(Join(lines, "\n")) == Join(trimmed, "\n")
  {
    var l, r := Edges(lines[0]);
    StripTo(lines[0], l, r);
    TrimmedLine(lines[0]);
    trimmed := [lines[0][l..]] + lines[1..];
    assert trimmed[1..] == lines[1..];
    StripLeftTo(Join(lines, "\n"), l);
    assert Join(lines, "\n")[l..] == Join(trimmed, "\n");
  }

  // The text of a begun block is a block text, closed if its fences are balanced.
  lemma {:induction false} BufferMakesBlockText(lines: seq<string>)
    requires OneBlock(lines)
    requires forall k :: 0 <= k < |lines| ==> '\n' !in lines[k] && '\r' !in lines[k]
    ensures IsBlockText(BufferText(lines))
    ensures Balanced(lines) ==> IsClosedText(BufferText(lines))
  {
    var started := TrimStart(lines);
    var trimmed := TrimEnd(started);
    var text := BufferText(lines);
    assert text == Join(trimmed, "\n");
    SplitJoin(trimmed, '\n');
    assert ['\n'] == "\n";
    JoinChars(lines, "\n", '\r');
    StripFacts(Join(lines, "\n"));
    if text == [] {
      BlankLineFirst(trimmed);
    }
  }

  lemma {:induction false} BlankLineFirst(lines: seq<string>)
    requires OneBlock(lines)
    ensures Join(lines, "\n") != []
  {
    if |lines| > 1 {
      assert Join(lines, "\n")[|lines[0]|] == '\n';
    }
  }

  ghost predicate AllClosed(blocks: seq<Block>) {
    forall k :: 0 <= k < |blocks| ==> IsClosedText(blocks[k].text)
  }

  lemma {:induction false} ScanKeepsClosed(lines: seq<string>)
    requires forall k :: 0 <= k < |lines| ==> '\n' !in lines[k] && '\r' !in lines[k]
    ensures var st := ScanLines(StartScan(), lines); BufferIsOneBlock(st) && AllClosed(st.blocks)
  {
    if lines == [] {
    } else {
      var init, last := lines[..|lines| - 1], lines[|lines| - 1];
      ScanKeepsClosed(init);
      var st := ScanLines(StartScan(), init);
      ScanKeepsBuffer(st, last);
      if st.buffer != [] && !st.inFence {
        BufferMakesBlockText(st.buffer);
      }
      BlankStrips([]);
    }
  }

  lemma {:induction false} SplitKeepsOut(s: string, c: char, sep: char)
    requires c !in s
    ensures forall k :: 0 <= k < |Split(s, sep)| ==> c !in Split(s, sep)[k]
  {
    if s == [] {
    } else {
      SplitKeepsOut(s[1..], c, sep);
    }
  }

  // For every document: each block is one block when scanned by itself, and every
  // block but possibly the last has balanced fences.
  lemma {:induction false} BlocksArePrintable(markdown: string)
    ensures Printable(Texts(SplitBlocks(markdown)))
  {
    var clean := WithoutCr(WithoutCrLf(markdown));
    var lines := Lines(markdown);
    SplitKeepsOut(clean, '\r', '\n');
    ScanKeepsClosed(lines);
    var st := ScanLines(StartScan(), lines);
    BlankStrips([]);
    if st.buffer != [] {
      BufferMakesBlockText(st.buffer);
    }
  }
}
