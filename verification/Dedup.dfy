// deduplicate_markdown of preprocess.py, for any key function on block texts.
module Dedup {
  import opened Text
  import opened Markdown
  import opened MarkdownRoundTrip

  datatype DedupResult = DedupResult(
    markdown: string, originalBlocks: nat, keptBlocks: nat, removedBlocks: int,
    originalChars: nat, dedupedChars: nat)

  // The keys of the blocks, as the set `seen` holds them.
  function Keys(blocks: seq<Block>, key: string -> string): set<string> {
    set b | b in blocks :: key(b.text)
  }

  // The first block of each key, in order.
  function Firsts(blocks: seq<Block>, key: string -> string): seq<Block> {
    if blocks == [] then []
    else
      var init, last := blocks[..|blocks| - 1], blocks[|blocks| - 1];
      if key(last.text) in Keys(init, key) then Firsts(init, key) else Firsts(init, key) + [last]
  }

  function Deduplicated(markdown: string, key: string -> string): DedupResult {
    var blocks := SplitBlocks(markdown);
    var kept := Firsts(blocks, key);
    var deduped := JoinBlocks(kept);
    DedupResult(deduped, |blocks|, |kept|, |blocks| - |kept|, |markdown|, |deduped|)
  }

  lemma {:induction false} OneMore(blocks: seq<Block>, k: nat, key: string -> string)
    requires k < |blocks|
    ensures Keys(blocks[..k + 1], key) == Keys(blocks[..k], key) + {key(blocks[k].text)}
    ensures Firsts(blocks[..k + 1], key) == Firsts(blocks[..k], key)
              + if key(blocks[k].text) in Keys(blocks[..k], key) then [] else [blocks[k]]
  {
    assert blocks[..k + 1] == blocks[..k] + [blocks[k]];
    assert blocks[..k + 1][..k] == blocks[..k];
  }

  lemma {:induction false} NothingSeen(blocks: seq<Block>, key: string -> string)
    ensures Keys(blocks[..0], key) == {} && Firsts(blocks[..0], key) == []
  {
  }

  method DeduplicateMarkdown(markdown: string, key: string -> string) returns (result: DedupResult)
    ensures result == Deduplicated(markdown, key)
  {
    var blocks := SplitMarkdownBlocks(markdown);
    var seen: set<string>, kept: seq<Block> := {}, [];
    NothingSeen(blocks, key);
    hide Keys, Firsts, SplitBlocks, JoinBlocks;
    for k := 0 to |blocks|
      invariant seen == Keys(blocks[..k], key)
      invariant kept == Firsts(blocks[..k], key)
    {
      OneMore(blocks, k, key);
      var blockKey := key(blocks[k].text);
      if blockKey in seen {
        continue;
      }
      seen := seen + {blockKey};
      kept := kept + [blocks[k]];
    }
    assert blocks[..|blocks|] == blocks;
    var deduped := JoinBlocks(kept);
    result := DedupResult(deduped, |blocks|, |kept|, |blocks| - |kept|, |markdown|, |deduped|);
  }

  ghost predicate IsFirst(blocks: seq<Block>, k: nat, key: string -> string) {
    k < |blocks| && forall j :: 0 <= j < k ==> key(blocks[j].text) != key(blocks[k].text)
  }

  ghost predicate Selects(blocks: seq<Block>, at: seq<nat>, kept: seq<Block>) {
    && |at| == |kept|
    && (forall i :: 0 <= i < |at| ==> at[i] < |blocks| && kept[i] == blocks[at[i]])
    && (forall i, j :: 0 <= i < j < |at| ==> at[i] < at[j])
  }

  // Which blocks are kept: those whose key no earlier block has, each at its place.
  lemma {:induction false} FirstsAreFirst(blocks: seq<Block>, key: string -> string) returns (at: seq<nat>)
    ensures Selects(blocks, at, Firsts(blocks, key))
    ensures forall k: nat :: k in at <==> IsFirst(blocks, k, key)
  {
    hide IsFirst, Keys;
    if blocks == [] {
      at := [];
      NoneIsFirst(key);
    } else {
      var init, last := blocks[..|blocks| - 1], blocks[|blocks| - 1];
      var before := FirstsAreFirst(init, key);
      assert blocks == init + [last];
      KeyIsNew(init, last, key);
      FirstsExtend(init, last, before, key);
      SelectsMore(init, before, Firsts(init, key), last);
      hide Selects;
      at := if key(last.text) in Keys(init, key) then before else before + [|init|];
      assert forall k: nat :: k in before + [|init|] <==> k in before || k == |init|;
    }
  }

  lemma {:induction false} NoneIsFirst(key: string -> string)
    ensures forall k: nat :: !IsFirst([], k, key)
  {
  }

  lemma {:induction false} SelectsMore(init: seq<Block>, at: seq<nat>, kept: seq<Block>, last: Block)
    requires Selects(init, at, kept)
    ensures Selects(init + [last], at, kept) && Selects(init + [last], at + [|init|], kept + [last])
  {
  }

  lemma {:induction false} FirstsExtend(init: seq<Block>, last: Block, before: seq<nat>, key: string -> string)
    requires forall k: nat :: k in before <==> IsFirst(init, k, key)
    ensures forall k: nat ::
              k in before || (k == |init| && IsFirst(init + [last], k, key)) <==> IsFirst(init + [last], k, key)
  {
    forall k: nat
      ensures k in before || (k == |init| && IsFirst(init + [last], k, key)) <==> IsFirst(init + [last], k, key)
    {
      var blocks := init + [last];
      assert forall j :: 0 <= j < |init| ==> blocks[j] == init[j];
      if IsFirst(init, k, key) {
        assert forall j :: 0 <= j < k ==> key(init[j].text) == key(blocks[j].text);
        assert IsFirst(blocks, k, key);
      }
      if IsFirst(blocks, k, key) && k < |init| {
        assert forall j :: 0 <= j < k ==> key(init[j].text) == key(blocks[j].text);
        assert IsFirst(init, k, key);
      }
    }
  }

  lemma {:induction false} KeyIsNew(init: seq<Block>, last: Block, key: string -> string)
    ensures key(last.text) !in Keys(init, key) <==> IsFirst(init + [last], |init|, key)
  {
    if key(last.text) !in Keys(init, key) {
      forall j | 0 <= j < |init|
        ensures key((init + [last])[j].text) != key(last.text)
      {
        assert init[j] in init;
      }
    } else {
      var b :| b in init && key(b.text) == key(last.text);
      var j :| 0 <= j < |init| && init[j] == b;
      assert (init + [last])[j] == b;
    }
  }

  lemma {:induction false} FirstsKeepKeys(blocks: seq<Block>, key: string -> string)
    ensures Keys(Firsts(blocks, key), key) == Keys(blocks, key)
  {
    if blocks == [] {
    } else {
      var init, last := blocks[..|blocks| - 1], blocks[|blocks| - 1];
      FirstsKeepKeys(init, key);
      assert blocks == init + [last];
      assert Keys(blocks, key) == Keys(init, key) + {key(last.text)};
    }
  }

  ghost predicate DistinctKeys(blocks: seq<Block>, key: string -> string) {
    forall k :: 0 <= k < |blocks| ==> IsFirst(blocks, k, key)
  }

  // Among blocks with distinct keys all are kept.
  lemma {:induction false} DistinctAreKept(blocks: seq<Block>, key: string -> string)
    requires DistinctKeys(blocks, key)
    ensures Firsts(blocks, key) == blocks
  {
    if blocks == [] {
    } else {
      var init, last := blocks[..|blocks| - 1], blocks[|blocks| - 1];
      assert blocks == init + [last];
      forall k | 0 <= k < |init|
        ensures IsFirst(init, k, key)
      {
        assert IsFirst(blocks, k, key);
      }
      DistinctAreKept(init, key);
      KeyIsNew(init, last, key);
    }
  }

  // The kept blocks have distinct keys and are printable like all of them.
  lemma {:induction false} KeptBlocks(markdown: string, key: string -> string)
    ensures Printable(Texts(Firsts(SplitBlocks(markdown), key)))
    ensures DistinctKeys(Firsts(SplitBlocks(markdown), key), key)
  {
    var blocks := SplitBlocks(markdown);
    BlocksArePrintable(markdown);
    var kept := Firsts(blocks, key);
    var at := FirstsAreFirst(blocks, key);
    forall k | 0 <= k < |kept|
      ensures IsBlockText(Texts(kept)[k])
      ensures k < |kept| - 1 ==> IsClosedText(Texts(kept)[k])
    {
      assert Texts(blocks)[at[k]] == Texts(kept)[k];
      if k < |kept| - 1 {
        assert at[k] < at[k + 1] < |blocks|;
      }
    }
    forall j | 0 <= j < |kept|
      ensures IsFirst(kept, j, key)
    {
      assert at[j] in at && IsFirst(blocks, at[j], key);
    }
  }

  // The round trip: splitting the deduplicated document gives the kept texts.
  lemma {:induction false} DedupRoundTrip(markdown: string, key: string -> string)
    ensures Texts(SplitBlocks(Deduplicated(markdown, key).markdown)) == Texts(Firsts(SplitBlocks(markdown), key))
  {
    KeptBlocks(markdown, key);
    SplitOfJoin(Firsts(SplitBlocks(markdown), key));
  }

  lemma {:induction false} SameTextsSameKeys(kept: seq<Block>, again: seq<Block>, key: string -> string)
    requires Texts(again) == Texts(kept) && DistinctKeys(kept, key)
    ensures DistinctKeys(again, key) && JoinBlocks(again) == JoinBlocks(kept) && |again| == |kept|
  {
    forall j | 0 <= j < |again|
      ensures IsFirst(again, j, key)
    {
      assert IsFirst(kept, j, key);
      assert forall i :: 0 <= i < |again| ==> again[i].text == Texts(again)[i] == Texts(kept)[i] == kept[i].text;
    }
  }

  // Deduplication is idempotent: a second pass removes nothing and prints the
  // same text.
  lemma {:induction false} DedupIdempotent(markdown: string, key: string -> string)
    ensures var once := Deduplicated(markdown, key);
            var twice := Deduplicated(once.markdown, key);
            && twice.markdown == once.markdown && twice.removedBlocks == 0
            && twice.originalBlocks == twice.keptBlocks == once.keptBlocks
  {
    var kept := Firsts(SplitBlocks(markdown), key);
    var again := SplitBlocks(Deduplicated(markdown, key).markdown);
    DedupRoundTrip(markdown, key);
    KeptBlocks(markdown, key);
    hide SplitBlocks, JoinBlocks, Strip, Printable, DistinctKeys;
    SameTextsSameKeys(kept, again, key);
    DistinctAreKept(again, key);
  }

  // The result: the texts of the first blocks of each key, a blank line between them,
  // and the counts of blocks and characters.
  lemma {:induction false} DedupAccounts(markdown: string, key: string -> string) returns (at: seq<nat>)
    ensures var blocks := SplitBlocks(markdown);
            && (forall i :: 0 <= i < |at| ==> at[i] < |blocks|)
            && (forall i, j :: 0 <= i < j < |at| ==> at[i] < at[j])
            && (forall k: nat :: k in at <==> IsFirst(blocks, k, key))
            && var result := Deduplicated(markdown, key);
            && result.markdown == Join(TextsAt(blocks, at), "\n\n")
            && result.originalBlocks == |blocks| && result.keptBlocks == |at|
            && result.removedBlocks == |blocks| - |at|
            && result.originalChars == |markdown| && result.dedupedChars == |result.markdown|
  {
    var blocks := SplitBlocks(markdown);
    at := FirstsAreFirst(blocks, key);
    var kept := Firsts(blocks, key);
    BlocksArePrintable(markdown);
    KeptArePlain(blocks, kept, at);
    hide SplitBlocks, Firsts, IsFirst;
    if kept != [] {
      PrintedIsStripped(Texts(kept));
      StripFacts(Join(Texts(kept), "\n\n"));
    } else {
      NothingJoined();
    }
    assert TextsAt(blocks, at) == Texts(kept);
  }

  function TextsAt(blocks: seq<Block>, at: seq<nat>): (texts: seq<string>)
    requires forall i :: 0 <= i < |at| ==> at[i] < |blocks|
    ensures |texts| == |at| && forall i :: 0 <= i < |at| ==> texts[i] == blocks[at[i]].text
  {
    seq(|at|, i requires 0 <= i < |at| => blocks[at[i]].text)
  }

  lemma {:induction false} KeptArePlain(blocks: seq<Block>, kept: seq<Block>, at: seq<nat>)
    requires Selects(blocks, at, kept)
    requires forall k :: 0 <= k < |blocks| ==> IsBlockText(Texts(blocks)[k])
    ensures forall k :: 0 <= k < |kept| ==> Texts(kept)[k] != [] && IsStripped(Texts(kept)[k])
  {
    forall k | 0 <= k < |kept|
      ensures Texts(kept)[k] != [] && IsStripped(Texts(kept)[k])
    {
      assert IsBlockText(Texts(blocks)[at[k]]);
    }
  }

  lemma {:induction false} NothingJoined()
    ensures JoinBlocks([]) == []
  {
  }
}
