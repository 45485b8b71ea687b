// split_markdown_blocks and join_blocks of chunking.py: a line scanner that cuts
// Markdown into blocks, and the printer that joins blocks again.
module Markdown {
  import opened Text

  datatype Block = Block(text: string, headings: seq<string>)

  // The two newline replacements before splitting into lines.
  function WithoutCrLf(s: string): string {
    if s == [] then []
    else if |s| > 1 && s[0] == '\r' && s[1] == '\n' then ['\n'] + WithoutCrLf(s[2..])
    else [s[0]] + WithoutCrLf(s[1..])
  }

  function WithoutCr(s: string): (r: string)
    ensures '\r' !in r
  {
    if s == [] then [] else [if s[0] == '\r' then '\n' else s[0]] + WithoutCr(s[1..])
  }

  function Lines(markdown: string): seq<string> {
    Split(WithoutCr(WithoutCrLf(markdown)), '\n')
  }

  lemma {:induction false} NoCarriageReturns(s: string)
    requires '\r' !in s
    ensures WithoutCr(WithoutCrLf(s)) == s
  {
    if s != [] {
      NoCarriageReturns(s[1..]);
      assert WithoutCrLf(s) == [s[0]] + WithoutCrLf(s[1..]);
      assert [s[0]] + s[1..] == s;
    }
  }

  // FENCE_RE on the stripped line.
  predicate IsFence(line: string) {
    var t := Strip(line);
    |t| >= 3 && (t[..3] == "```" || t[..3] == "~~~")
  }

  function Hashes(line: string): (n: nat)
    ensures n <= |line|
  {
    if line != [] && line[0] == '#' then 1 + Hashes(line[1..]) else 0
  }

  // HEADING_RE: one to six hashes, a space, and at least one more character.
  // The level, or 0 for a line that is no heading.
  function HeadingLevel(line: string): (level: nat)
    ensures level <= 6
  {
    var n := Hashes(line);
    if 1 <= n <= 6 && |line| >= n + 2 && IsSpace(line[n]) then n else 0
  }

  function HeadingTitle(line: string): string {
    Strip(line[Hashes(line)..])
  }

  datatype Scan = Scan(blocks: seq<Block>, headings: seq<string>, buffer: seq<string>, inFence: bool)

  function StartScan(): Scan {
    Scan([], [], [], false)
  }

  function BufferText(buffer: seq<string>): string {
    Strip(Join(buffer, "\n"))
  }

  function AfterFlush(blocks: seq<Block>, headings: seq<string>, buffer: seq<string>): seq<Block> {
    var text := BufferText(buffer);
    if text != [] then blocks + [Block(text, headings)] else blocks
  }

  function Flushed(st: Scan): Scan {
    st.(blocks := AfterFlush(st.blocks, st.headings, st.buffer), buffer := [])
  }

  // headings[: level - 1] + [title], where the slice may be shorter.
  function Deeper(headings: seq<string>, level: nat, title: string): seq<string> {
    (if level <= |headings| + 1 && level >= 1 then headings[..level - 1] else headings) + [title]
  }

  function ScanLine(st: Scan, line: string): Scan {
    if IsFence(line) then st.(inFence := !st.inFence, buffer := st.buffer + [line])
    else if !st.inFence && HeadingLevel(line) > 0 then
      var flushed := Flushed(st);
      flushed.(headings := Deeper(st.headings, HeadingLevel(line), HeadingTitle(line)), buffer := [line])
    else if !st.inFence && IsBlank(line) then Flushed(st)
    else st.(buffer := st.buffer + [line])
  }

  function ScanLines(st: Scan, lines: seq<string>): Scan {
    if lines == [] then st else ScanLine(ScanLines(st, lines[..|lines| - 1]), lines[|lines| - 1])
  }

  lemma {:induction false} ScanSnoc(st: Scan, lines: seq<string>, last: string)
    ensures ScanLines(st, lines + [last]) == ScanLine(ScanLines(st, lines), last)
  {
    assert (lines + [last])[..|lines|] == lines;
  }

  function SplitBlocks(markdown: string): seq<Block> {
    Flushed(ScanLines(StartScan(), Lines(markdown))).blocks
  }

  function Texts(blocks: seq<Block>): (texts: seq<string>)
    ensures |texts| == |blocks|
    ensures forall k :: 0 <= k < |blocks| ==> texts[k] == blocks[k].text
  {
    seq(|blocks|, k requires 0 <= k < |blocks| => blocks[k].text)
  }

  function JoinBlocks(blocks: seq<Block>): string {
    Strip(Join(Texts(blocks), "\n\n"))
  }

  method SplitMarkdownBlocks(markdown: string) returns (blocks: seq<Block>)
    ensures blocks == SplitBlocks(markdown)
  {
    blocks := [];
    var headings: seq<string>, buffer: seq<string>, inFence := [], [], false;
    var lines := Lines(markdown);
    for k := 0 to |lines|
      invariant Scan(blocks, headings, buffer, inFence) == ScanLines(StartScan(), lines[..k])
    {
      var line := lines[k];
      ghost var next := ScanLine(Scan(blocks, headings, buffer, inFence), line);
      assert ScanLines(StartScan(), lines[..k + 1]) == next by {
        assert lines[..k + 1][..k] == lines[..k];
      }
      var level := if inFence then 0 else HeadingLevel(line);
      if IsFence(line) {
        inFence := !inFence;
        buffer := buffer + [line];
      } else if level > 0 {
        blocks := AfterFlush(blocks, headings, buffer);
        headings := headings[..if level - 1 <= |headings| then level - 1 else |headings|] + [HeadingTitle(line)];
        buffer := [line];
      } else if !inFence && IsBlank(line) {
        blocks := AfterFlush(blocks, headings, buffer);
        buffer := [];
      } else {
        buffer := buffer + [line];
      }
    }
    assert lines[..|lines|] == lines;
    blocks := AfterFlush(blocks, headings, buffer);
  }
}
