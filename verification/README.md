# UniCrawler verified model

A Dafny 4.11 model of the crawl, parse and vectorize pipeline, with proofs of
what its hard parts keep. `dafny verify dfyconfig.toml` checks everything.
Lemmas switch automatic induction off: each states its own induction.

**The concurrent crawl** (`Frontier`, `UrlQueue`, `OutputWriter`, `Crawl*`, with
`Tally` for sums over workers). The compacting queue is a class, proved to be a
first-in-first-out queue at amortised constant cost. Around its abstract form, a
crawl is a step system: each worker is a program counter, every critical section,
set-add and push is a step of its own, and the context may be cancelled, and any
Redis or Postgres call may fail, at any point. Fetching is an arbitrary fixed
function. The results hold in every reachable state of every run: no wake-up is
lost, nothing deadlocks, `outstanding` detects the end exactly, every URL and
every counter is accounted for, and every run ends. An undisturbed run with at
least one worker that has no page limit, or stays below it, finds exactly the
reachable URLs; under a limit of M pages, every run pushes only the seed and links
of at most M - 1 fetched pages.

**Text** (`Text`, `CleanPath`, `Markdown`, `MarkdownRoundTrip`, `BlockLines`,
`Dedup`, `Headings`, `LargeBlock`, `Windows`, `WindowCover`, `WindowTexts`,
`Grouping`, `Chunks`, `ChunkFacts`, `Ranges`, `Sampling`, `Hierarchy`,
`HierarchyFacts`, `SummaryFacts`). Lines, stripping and splitting are concrete. The
tokenizer is any function; nothing assumes that counts add up over joined text.
Only the facts about chunks ask that non-empty text counts at least one token, and
only `HeadsDecode` that decoding undoes encoding piece by piece. The key of the
deduplication and the text of a summary are arbitrary functions.

**Index and queues** (`Decimal`, `VectorIndex`, `VectorIndexFacts`, `Messages`,
`MessageLog`, `MessageFacts`, `MessageIndex`, `Consumer`, `Vectorizer`,
`ArrivalOrder`). The vector store is a map from point id to point for each
collection. An upsert may stop after any number of requests. The consumer of the
reliable queue meets failing requests, applied or not, exceptions and process
death at any point, over any number of restarts. Its methods return a log of
events that a specification allows for the given turns and processes, and leave
the lists, the books and the store exactly as that log makes them; the rest is
proved of all such logs. `Vectorizer` puts the queue, the chunking and the store
together. UUIDv5 is assumed to be injective, and nothing else about hashing.

**Versions** (`VersionStore`, `VersionFacts`, `VersionRows`, `VersionReplay`).
Documents, versions, sources and errors are tables, beside a urls table that
another service may change between transactions. A transaction commits, is rolled
back, or fails in COMMIT with or without effect. What every row holds is stated as
a function of the whole sequence of transactions. Saves carry the hash of their
text, as the parser computes it, and hashes are not empty; the hash need not be
injective.

What the code does, and where that is less than one might expect:

- The worker count has no lower bound (services/mapper/main.go:671). Counts from 0
  are modelled; `workers.Add` (services/mapper/main.go:356) panics on a negative
  one. With 0 workers a crawl finishes without fetching anything; a finished and
  undisturbed crawl that reached no page limit is complete if and only if it has a
  worker or its seed was known before.
- The seed is pushed and fetched, but never sent to the output queue
  (services/mapper/main.go:338).
- `cleanPath` is only given the result of `EscapedPath`
  (services/mapper/main.go:587), which is always validly escaped, so its branch for
  a malformed escape (services/mapper/main.go:602-604) is never taken, and cleaning
  is stable on everything the program passes. Taken alone, the function returns a
  malformed path as it stands, and only then can a second cleaning differ.
- A window may sum to twice `chunk_tokens`: the last block is carried over
  whatever its size, and the next block is added to it. The limit `chunk_tokens`
  does not hold for all lists of block sizes unless nothing is carried over.
- A heading path is wrong after a skipped level, exactly when some heading finds
  more room in the path than there are open headings above it.
- docs/queues.md:33 asks failed queues to preserve the message. Handling a message
  keeps it in a list or acknowledged if and only if it is not removed after its
  attempts raised with its dead letter not arriving: the process stops, or Redis
  fails, between the two requests (services/vectorizer/src/vectorizer/main.py:140-141).
  `DiesBeforeDeadLetter` is such a run; over any number of processes, the lost
  messages are exactly those handled that way.
- docs/architecture.md:9 calls versions immutable. Their text is, but a version's row
  is rewritten, in its `parsed_at` alone, if and only if a save of the same content
  at another time is reported as a change; saving "a", "b" and "a" does so.
- The input queue is pushed and popped at the same end, so of two versions that wait
  together the newer one is indexed first. With nothing stopped, the index ends on
  the newer version if and only if the older one was taken before the newer one came;
  otherwise it ends on the older one, as in `EndsOnOlder`.

## Model

| member | source | states |
|---|---|---|
| `Frontier.FirstInFirstOut` | services/mapper/main.go:421-470 | over any history of push, pop, close and done: items taken, then items waiting, are the initial items followed by the accepted ones |
| `Frontier.ClosedAcceptsNothing` | services/mapper/main.go:421-458 | a closed queue stays closed and accepts nothing, whatever is called |
| `UrlQueue.URLQueue.Push` | services/mapper/main.go:421-431 | appends to the abstract queue and counts the item, unless closed; copies nothing |
| `UrlQueue.URLQueue.TryPop` | services/mapper/main.go:433-451 | one pass of the pop loop takes the oldest item across a compaction, or waits, or reports the end |
| `UrlQueue.URLQueue.Close` | services/mapper/main.go:453-458 | closes the abstract queue and keeps its items |
| `UrlQueue.URLQueue.Done` | services/mapper/main.go:460-470 | counts one item off, not below zero, and closes at zero |
| `UrlQueue.Replay` | services/mapper/main.go:406-470 | any history run on the slice hands out what the abstract queue does; items copied plus the dead prefix never exceed the pops; the dead prefix is at most 4096 or shorter than the live part |
| `OutputWriter.BatchesCoverRecords` | services/mapper/main.go:520-547 | after any number of records, calls and waiting batch carry exactly these records, in order, and every call made so far is full |
| `OutputWriter.FlushCarriesAll` | services/mapper/main.go:546 | the last flush leaves nothing behind |
| `OutputWriter.FlushParseRequests` | services/mapper/main.go:520-547 | the calls carry exactly the records, in order, in full batches but the last; if all succeed the queue receives each once |
| `CrawlProtocol.StepKeepsProtocol` | services/mapper/main.go:351-393 | every step keeps: outstanding = queued plus in hand; open after the seed means outstanding is positive; closed means nobody sleeps; a sleeper means at most as many items as woken workers |
| `CrawlProtocol.RunKeepsProtocol` | services/mapper/main.go:351-470 | the protocol invariant holds in every state of every run |
| `CrawlProtocol.NoLostWakeup` | services/mapper/main.go:421-470 | while somebody sleeps the queue is open, the waiting items are at most the woken workers, and some worker is awake |
| `CrawlProtocol.ClosedMeansExhausted` | services/mapper/main.go:338-470 | once the crawl has begun, the queue is closed if and only if it is empty and nobody holds a page, or the cancelled context closed it, or the seed was pushed but could not be stored |
| `CrawlProtocol.PushNeverRefused` | services/mapper/main.go:300-302 | a worker's push is refused if and only if the cancelled context closed the queue or the seed was not accepted; it is never refused without cancellation and without a fault or with an accepted seed; otherwise it appends its URL |
| `CrawlProtocol.NeverStuck` | services/mapper/main.go:351-397 | in any state before the end some goroutine can move |
| `CrawlLedger.StepKeepsLedger` | services/mapper/main.go:264-393 | every step keeps the accounts: each new visited URL is claimed once and pushed once or lost; each push popped once, in order, and fetched once; each push becomes one record or a loss; nothing is lost in an undisturbed run |
| `CrawlSearch.StepKeepsSearch` | services/mapper/main.go:264-393 | every step keeps the search invariant: only reachable URLs are touched, and every link of a fetched page is visited or still ahead of a worker |
| `CrawlSearch.RunKeepsInvariant` | services/mapper/main.go:253-404 | protocol, accounts and search invariant hold in every state of every run |
| `CrawlSearch.FinishedAccounts` | services/mapper/main.go:395-403 | at the end of an undisturbed run, popped = pushed in order, fetched = pushed = newly visited as multisets, delivered plus lost records = pushed |
| `CrawlSearch.VisitedIsClosed` | services/mapper/main.go:264-393 | at the end of an undisturbed run with no limit, or fewer pages than it, the visited set is closed under the links of new pages |
| `CrawlSearch.CrawlIsExact` | services/mapper/main.go:253-404 | an undisturbed, finished crawl with a worker, and no limit or fewer pages than it, pushed exactly the URLs reachable outside the known set, each once; visited = known plus these; each fetched once |
| `CrawlSearch.NoWorkerFetchesNothing` | services/mapper/main.go:356-357 | with a worker count of 0, no state of any run has popped or fetched anything |
| `CrawlSearch.CompleteUnlessNoWorkers` | services/mapper/main.go:253-404 | a finished, undisturbed run with no limit, or fewer pages than it, fetched what it pushed and visited exactly the known and the reachable URLs, if and only if there was a worker or the seed was known |
| `CrawlSearch.PushesAreReachable` | services/mapper/main.go:264-315 | in any run, disturbed or not, only reachable URLs are pushed, and none is pushed, fetched or delivered twice |
| `CrawlSearch.CountersConserved` | services/mapper/main.go:322-403 | pages + errors = URLs pushed, links + 1 = pages + errors, and every pushed URL but the seed reaches the output queue exactly once |
| `CrawlSearch.LinksAreLinks` | services/mapper/main.go:376-384 | the links of a page are exactly the normalized URLs of its references that lie in the job's domain |
| `CrawlLimit.StepKeepsLimit` | services/mapper/main.go:264-275 | every step keeps: the pages whose links were let through are fetched, counted and fewer than the limit, and every new visited URL is the seed or a link of one of them |
| `CrawlLimit.LimitBoundsSources` | services/mapper/main.go:268-275 | with a limit of M pages, in every state of every run: every pushed URL is the seed or a link of one of at most M - 1 fetched pages |
| `CrawlLimit.RunKeepsCounted` | services/mapper/main.go:365-375 | in every state of every run each failing page is counted as an error; without cancellation nothing else is, and every fetched page is counted as a page or failed; the channel stays within its capacity |
| `CrawlTermination.StepDecreases` | services/mapper/main.go:351-397 | over finitely many URLs every step lowers a four-part rank |
| `CrawlTermination.EveryRunEnds` | services/mapper/main.go:351-397 | every maximal run, cancelled or failing anywhere or not, ends with all workers returned and the writer drained |
| `CrawlTermination.CrawlTheorem` | services/mapper/main.go:253-404 | every run over finitely many URLs ends; if undisturbed, with a worker, and with no limit or fewer pages than it, it has pushed exactly the reachable URLs, each once, visited these and the known ones, fetched each once and delivered each but the seed once |
| `CleanPath.CleanPath` | services/mapper/main.go:597-626 | the loop over segments computes the cleaned path |
| `CleanPath.StackIsSurvivors` | services/mapper/main.go:605-617 | the stack machine keeps exactly the segments that no later ".." cancels, read from the end |
| `CleanPath.CleanedIsCanonical` | services/mapper/main.go:597-626 | the output starts with "/", has no empty, "." or ".." segment, at most one slash at the end, and is made of the surviving segments |
| `CleanPath.CleanedReads` | services/mapper/main.go:605-626 | split at slashes, the output is an empty part, the surviving segments, and a last empty part exactly if the path ended in a slash or nothing survives |
| `CleanPath.CleaningIsStable` | services/mapper/main.go:587-626 | for every path that can be unescaped, as all that the caller passes can: cleaning an escaped output again changes nothing |
| `CleanPath.CleaningAgain` | services/mapper/main.go:597-626 | the function alone, on any bytes: cleaning an escaped output again changes nothing, if and only if the path could be unescaped or was canonical already |
| `CleanPath.UnescapeUndoesEscape` | services/mapper/main.go:601 | percent-encoding a byte string is an escape that unescaping undoes |
| `CleanPath.UnescapeFails` | services/mapper/main.go:601-604 | unescaping fails if and only if some percent sign is not followed by two hexadecimal digits |
| `CleanPath.UnescapeParts` | services/mapper/main.go:601 | text and escapes are read one by one: unescaping distributes over joining |
| `CleanPath.HexDigitIs` | services/mapper/main.go:601 | the digits of an escape are 0-9, a-f and A-F, with their values |
| `CleanPath.MalformedEscapeIsNotStable` | services/mapper/main.go:601-604 | the function alone, in the branch its caller never reaches: "%" is returned as it stands, and its escaped form cleans to another path |
| `Markdown.SplitMarkdownBlocks` | services/vectorizer/src/vectorizer/chunking.py:124-158 | the line loop computes the blocks of the scanner |
| `BlockLines.LineEndsDoNotMatter` | services/vectorizer/src/vectorizer/chunking.py:136 | lines without line-end characters give the same blocks joined with "\r\n", "\r" or "\n" |
| `BlockLines.BlocksAreLines` | services/vectorizer/src/vectorizer/chunking.py:124-158 | the blocks are runs of the document's lines, in order, disjoint, stripped; a run begins with text, has no blank line and no further heading outside fences, and ends before one or at the end; every line outside the runs is blank and outside fences |
| `BlockLines.HeadingIs` | services/vectorizer/src/vectorizer/chunking.py:143-146 | a line is a heading of level n if and only if it is n hashes, at most six, then whitespace, then something |
| `BlockLines.FenceIs` | services/vectorizer/src/vectorizer/chunking.py:137 | a line is a fence if and only if only whitespace stands before three backquotes or three tildes |
| `BlockLines.WhitespaceTable` | services/vectorizer/src/vectorizer/chunking.py:131 | exactly the 29 characters that are stripped |
| `MarkdownRoundTrip.BlocksArePrintable` | services/vectorizer/src/vectorizer/chunking.py:124-158 | every block of every document is one block when scanned alone, and every block but possibly the last has balanced fences |
| `MarkdownRoundTrip.SplitOfJoin` | services/vectorizer/src/vectorizer/chunking.py:124-162 | splitting what was joined from such texts gives the texts back |
| `Dedup.DeduplicateMarkdown` | services/vectorizer/src/vectorizer/preprocess.py:22-42 | the loop keeps the first block of each key and counts what it drops |
| `Dedup.FirstsAreFirst` | services/vectorizer/src/vectorizer/preprocess.py:27-32 | a block is kept if and only if no earlier block has its key, and the order stays |
| `Dedup.DedupAccounts` | services/vectorizer/src/vectorizer/preprocess.py:22-42 | the result is the texts of the first blocks of each key, joined by blank lines, with the counts of blocks and characters before and after |
| `Dedup.DedupRoundTrip` | services/vectorizer/src/vectorizer/preprocess.py:22-42 | splitting the deduplicated document gives exactly the kept texts, for any key function |
| `Dedup.DedupIdempotent` | services/vectorizer/src/vectorizer/preprocess.py:22-42 | a second pass removes no block and returns the same text, for any key function |
| `Headings.OpenMeansOdd` | services/vectorizer/src/vectorizer/chunking.py:137-140 | the fence flag is set exactly after an odd number of fence lines |
| `Headings.ScannerKeepsPath` | services/vectorizer/src/vectorizer/chunking.py:136-155 | the scanner's heading list is the path of the headings outside fences seen so far |
| `Headings.BlockHeadings` | services/vectorizer/src/vectorizer/chunking.py:130-158 | each block carries the path of the place where it ends; in a well-nested document that is the chain of enclosing headings, found by scanning back |
| `Headings.PathsExact` | services/vectorizer/src/vectorizer/chunking.py:146-148 | all paths are the enclosing chains if and only if every heading falls in place |
| `Headings.NoSkipsNoErrors` | services/vectorizer/src/vectorizer/chunking.py:146-148 | when no heading is more than one level deeper than the one before it, all paths are right |
| `Headings.SkippedLevelMisleads` | services/vectorizer/src/vectorizer/chunking.py:148 | a level-3 heading before a level-2 heading stays in the path of the second without enclosing it |
| `Headings.SkippedLevelInDocument` | services/vectorizer/src/vectorizer/chunking.py:124-158 | a document "### a", "## b" is cut into two blocks, the second with the headings a and b, though only b encloses it |
| `Headings.PathShape` | services/vectorizer/src/vectorizer/chunking.py:146-148 | a path has at most six entries and ends with the latest heading |
| `LargeBlock.SplitLargeBlock` | services/vectorizer/src/vectorizer/chunking.py:63-71 | the loop computes the pieces of `PiecesAreSlices` |
| `LargeBlock.PiecesAreSlices` | services/vectorizer/src/vectorizer/chunking.py:63-71 | the pieces are, in order, the stripped decodings of exactly those slices of the tokens that decode to more than whitespace, each with the block's headings |
| `LargeBlock.HeadsDecode` | services/vectorizer/src/vectorizer/chunking.py:64-68 | for a decoder that undoes the encoder and distributes over joining, the decoded first `step` tokens of the slices, joined, are the block's text |
| `LargeBlock.LargeBlockCovered` | services/vectorizer/src/vectorizer/chunking.py:64-68 | the least number of slices that reach the end, and the first `step` tokens of each, joined, are the original tokens |
| `LargeBlock.LargeBlockOverlaps` | services/vectorizer/src/vectorizer/chunking.py:64-68 | no slice is empty or over the limit, and neighbours share exactly the overlap, or all of a shorter later slice |
| `Windows.OverlapTail` | services/vectorizer/src/vectorizer/chunking.py:73-85 | the loop selects the tail that the plan describes, with its count |
| `WindowCover.TailFacts` | services/vectorizer/src/vectorizer/chunking.py:73-85 | with a positive overlap the tail has a block, fits the overlap or is one block, and cannot be longer |
| `Windows.SplitWindows` | services/vectorizer/src/vectorizer/chunking.py:34-59 | the loop emits the windows of the plan of spans |
| `WindowCover.WindowsAreChained` | services/vectorizer/src/vectorizer/chunking.py:40-59 | spans follow each other without gap from the first block to the last; a run ends in a new block, carries over exactly the tail of the run before, and ends only where the next block does not fit; it exceeds the limit only as a tail and one block |
| `WindowCover.WindowsCoverBlocks` | services/vectorizer/src/vectorizer/chunking.py:40-59 | dropping what each window carries over and joining gives every block once, in order |
| `WindowCover.WindowsWithinTwice` | services/vectorizer/src/vectorizer/chunking.py:51-56 | a window's summed counts are at most twice the limit, and at most the limit without overlap |
| `WindowCover.LimitKeptOnlyWithoutOverlap` | services/vectorizer/src/vectorizer/chunking.py:80 | for a positive limit, no list of block sizes has a window over the limit if and only if the overlap is not positive |
| `WindowTexts.WindowOfRun` | services/vectorizer/src/vectorizer/chunking.py:44-59 | the window of a run has the texts of its blocks, joined by blank lines, and the headings of its last block |
| `WindowTexts.WindowsOfLarge` | services/vectorizer/src/vectorizer/chunking.py:42-49 | the windows of a large block are the slices of its tokens that decode to more than whitespace, decoded and stripped, in order, under its headings |
| `WindowTexts.SizesAreTokens` | services/vectorizer/src/vectorizer/chunking.py:41 | the sizes that windows are planned with are the token counts of the blocks |
| `WindowTexts.OneRendered` | services/vectorizer/src/vectorizer/chunking.py:42-59 | a plan of one span has that span's windows |
| `WindowTexts.RenderedConcat` | services/vectorizer/src/vectorizer/chunking.py:40-59 | the windows of a plan are those of its spans, one after the other |
| `WindowTexts.WindowIsOfSpan` | services/vectorizer/src/vectorizer/chunking.py:40-59 | every window is one of the windows of a span, at its place |
| `Chunks.ToChunks` | services/vectorizer/src/vectorizer/chunking.py:87-118 | the merging loop computes one chunk for each group of windows |
| `ChunkFacts.WindowsArePlain` | services/vectorizer/src/vectorizer/chunking.py:34-71 | every window of every document has stripped, non-empty text |
| `ChunkFacts.ContextKeepsText` | services/vectorizer/src/vectorizer/chunking.py:165-173 | the heading context goes in front and leaves the text whole and stripped |
| `ChunkFacts.ContextShowsHeadings` | services/vectorizer/src/vectorizer/chunking.py:165-173 | every heading of a window can be read in its contextual text |
| `ChunkFacts.ContextIs` | services/vectorizer/src/vectorizer/chunking.py:165-173 | the context names exactly the headings that do not occur in the first 300 characters of the text, in order; without any the text stays as it is |
| `ChunkFacts.WindowsOfChunk` | services/vectorizer/src/vectorizer/chunking.py:93-116 | every chunk but the first is opened by a window of at least the minimum, and all its other windows are below it |
| `ChunkFacts.ChunkIsGroup` | services/vectorizer/src/vectorizer/chunking.py:94-116 | a chunk's index is its position, its headings are those of its first window, its text is the whole text of its windows in order, and count and hash are those of that text |
| `ChunkFacts.ChunksPartitionWindows` | services/vectorizer/src/vectorizer/chunking.py:87-118 | the groups are consecutive and cover all windows |
| `ChunkFacts.ChunkOffsets` | services/vectorizer/src/vectorizer/chunking.py:89-117 | starts begin at 0 and ascend strictly; a chunk starts at or before the end of the one before it, if and only if the overlap is not negative |
| `ChunkFacts.ChunkStart` | services/vectorizer/src/vectorizer/chunking.py:117 | a chunk starts exactly the overlap before the end of the one before it, but at least one token behind the start of that one's last window |
| `ChunkFacts.Split` | services/vectorizer/src/vectorizer/chunking.py:34-61 | the whole of `split`: blocks, windows, chunks |
| `ChunkFacts.DocumentIsChunked` | services/vectorizer/src/vectorizer/chunking.py:34-61 | the chunks of every document are a chunking of its windows, so all of the above holds of them |
| `WindowTexts.ChunkHeadings` | services/vectorizer/src/vectorizer/chunking.py:34-118 | a chunk has the headings of the last block of its first window's span; in a well-nested document these are the chain of headings that enclose the place where that block ends |
| `Sampling.NearestIsRound` | services/vectorizer/src/vectorizer/hierarchy.py:63 | rounding gives the one nearest integer, the even one of two |
| `Sampling.SamplingIsEven` | services/vectorizer/src/vectorizer/hierarchy.py:52-65 | for more items than slots: strictly ascending positions from the first item to the last, no gap over the floor of the even spacing plus one |
| `Hierarchy.PicksAscend` | services/vectorizer/src/vectorizer/hierarchy.py:52-86 | under every limit, positive or not, the sampled positions are inside and strictly ascending |
| `Hierarchy.SelectRepresentativeChunks` | services/vectorizer/src/vectorizer/hierarchy.py:52-65 | the loop takes the content chunks at the sampled positions |
| `Hierarchy.SelectRepresentativeGroups` | services/vectorizer/src/vectorizer/hierarchy.py:80-86 | takes the groups at the sampled positions |
| `Hierarchy.BuildSummaryChunks` | services/vectorizer/src/vectorizer/hierarchy.py:68-77 | one document summary, then a summary of each picked section, in order |
| `HierarchyFacts.PrepareChunks` | services/vectorizer/src/vectorizer/hierarchy.py:22-49 | deduplicates, truncates, splits, and indexes whole or by sample and summaries, with the counts it reports |
| `HierarchyFacts.SectionRange` | services/vectorizer/src/vectorizer/hierarchy.py:69-70 | a section's first and last chunk have the indices of its range of positions |
| `HierarchyFacts.SummaryRange` | services/vectorizer/src/vectorizer/hierarchy.py:109-125 | a section summary names exactly the range of its section |
| `HierarchyFacts.SectionsAscend` | services/vectorizer/src/vectorizer/hierarchy.py:68-77 | section summaries come in order and share no source chunk |
| `HierarchyFacts.SectionsTileUnlessCapped` | services/vectorizer/src/vectorizer/hierarchy.py:69-72 | the summarised ranges tile the source from first to last, if and only if the cap leaves no section out |
| `HierarchyFacts.IndexedFacts` | services/vectorizer/src/vectorizer/hierarchy.py:22-49 | indices are positions; ranges lie in the source; a small document is indexed whole; a large one has a document summary over all of it after the sample, and at most the sample, one, and the cap |
| `HierarchyFacts.PreparedIsPositional` | services/vectorizer/src/vectorizer/hierarchy.py:22-49 | for every document the prepared chunks are numbered 0, 1, 2, ... |
| `SummaryFacts.SmallIsWhole` | services/vectorizer/src/vectorizer/hierarchy.py:29-31 | a document within the limit is indexed chunk by chunk, unchanged but for kind and range |
| `SummaryFacts.LargeIsSampled` | services/vectorizer/src/vectorizer/hierarchy.py:39-41 | a larger one is indexed by an even sample of its chunks, from the first to the last, and then its summaries, renumbered |
| `SummaryFacts.HeadingsAreDistinct` | services/vectorizer/src/vectorizer/hierarchy.py:90 | the headings of a summary are those of its chunks, the first of each, in order |
| `SummaryFacts.DocumentSummaryIs` | services/vectorizer/src/vectorizer/hierarchy.py:89-106 | the first summary covers all chunks, with their headings and a text made from an even sample of at most twelve of them |
| `SummaryFacts.SectionSummaryIs` | services/vectorizer/src/vectorizer/hierarchy.py:68-77 | every other summary is that of a section at an even sample of the sections, all of them without a cap: with its range, its headings and a text made from its chunks |
| `SummaryFacts.TruncatedIs` | services/vectorizer/src/vectorizer/hierarchy.py:25-26 | a document over a positive character limit is cut at it |
| `Decimal.PrintIsUnique` | services/vectorizer/src/vectorizer/qdrant.py:186 | printed integers are equal only for equal integers, and have no colon |
| `Decimal.PrintReads` | services/vectorizer/src/vectorizer/qdrant.py:186 | a printed integer reads as itself, in decimal digits without leading zeros, behind a minus sign if negative |
| `VectorIndex.QdrantSink.EnsureCollection` | services/vectorizer/src/vectorizer/qdrant.py:83-107 | creates a missing collection, refuses one of another dimension, and remembers those it has accepted |
| `VectorIndex.QdrantSink.UpsertBatches` | services/vectorizer/src/vectorizer/qdrant.py:45-68 | after any number of requests, exactly the chunks of that many batches are put |
| `VectorIndex.QdrantSink.DeleteStaleVersions` | services/vectorizer/src/vectorizer/qdrant.py:124-144 | a point stays if and only if it is of another document or has the current hash; what stays is unchanged, and so are all other collections |
| `VectorIndex.QdrantSink.DeleteSurplusCurrentVersion` | services/vectorizer/src/vectorizer/qdrant.py:146-173 | a point stays if and only if it is of another document, has another hash, or is below the chunk count; what stays is unchanged, and so are all other collections |
| `VectorIndex.QdrantSink.UpsertDocument` | services/vectorizer/src/vectorizer/qdrant.py:41-72 | stopped after any number of requests, changes one collection to what those requests make of it, as told by `EveryStopPutsChunks`, `StopsInOrder` and `OnePointEach` |
| `VectorIndexFacts.PointIdsAreUnique` | services/vectorizer/src/vectorizer/qdrant.py:185-187 | in a collection, two point ids are equal if and only if document, hash and index are, even for hashes with colons |
| `VectorIndexFacts.PutHolds` | services/vectorizer/src/vectorizer/qdrant.py:58-68 | a chunk's point, once put, is not overwritten by a later chunk |
| `VectorIndexFacts.EveryStopKeeps` | services/vectorizer/src/vectorizer/qdrant.py:41-72 | at every stopping point every point has its own id and other documents are untouched |
| `VectorIndexFacts.EveryStopPutsChunks` | services/vectorizer/src/vectorizer/qdrant.py:41-72 | at every stopping point every point was there, or is one of a chunk: the embedding of its text, the document's id, version, hash and details, the chunk, its index and the model |
| `VectorIndexFacts.EveryStopIsFaithful` | services/vectorizer/src/vectorizer/qdrant.py:58-66 | at every stopping point every vector is the embedding of the text of the chunk in its payload, and its chunk id that chunk's index, if it was so before |
| `VectorIndexFacts.StopsInOrder` | services/vectorizer/src/vectorizer/qdrant.py:46-71 | nothing goes before all chunks are put; the first delete takes exactly the document's points of other hashes |
| `VectorIndexFacts.FinishedReconciles` | services/vectorizer/src/vectorizer/qdrant.py:41-72 | a finished upsert leaves for the document exactly the points of its chunks, with the fields listed for `EveryStopPutsChunks`, and all others as they were |
| `VectorIndexFacts.OnePointEach` | services/vectorizer/src/vectorizer/qdrant.py:41-72 | after a finished upsert there is exactly one point of the document for each chunk position, with that chunk's vector and payload, and none for any other position |
| `VectorIndexFacts.ReconciledIsUnique` | services/vectorizer/src/vectorizer/qdrant.py:41-72 | these two conditions determine the collection |
| `VectorIndexFacts.RerunRepairs` | services/vectorizer/src/vectorizer/qdrant.py:41-72 | stopping anywhere and running again gives the collection of one clean run |
| `VectorIndexFacts.NeverWithoutPoints` | services/vectorizer/src/vectorizer/qdrant.py:41-72 | a document that had points has points at every stopping point |
| `VectorIndexFacts.LastFinishedWins` | services/vectorizer/src/vectorizer/qdrant.py:41-72 | over any sequence of finished and stopped upserts of any documents, a document's points are those of its last upsert, if that one finished |
| `Messages.RemovesOne` | services/vectorizer/src/vectorizer/main.py:140-159 | removing a message takes away one of its copies, if there is one |
| `Messages.RemovesLeftmost` | services/vectorizer/src/vectorizer/main.py:140-158 | it is the leftmost copy, and the others keep their places |
| `Messages.UpsertSettles` | services/vectorizer/src/vectorizer/main.py:226 | any upsert keeps the index sound, and a finished one settles its message |
| `Messages.HandlingBalances` | services/vectorizer/src/vectorizer/main.py:132-159 | however removal and push go, the message is in one list, acknowledged or lost, and arrivals stay accounted for |
| `Messages.KeptUnlessLost` | services/vectorizer/src/vectorizer/main.py:132-159 | handling a message leaves the messages in the lists and the acknowledgements as they were, if and only if it is not removed after raising with its dead letter not arriving |
| `Messages.KilledPushLosesMessage` | services/vectorizer/src/vectorizer/main.py:140-141 | a message whose attempts raised, removed by a process that dies before the push, is in no list and not acknowledged |
| `Messages.NoneLost` | services/vectorizer/src/vectorizer/main.py:132-159 | between two moments nothing was lost, if and only if none of the messages handled between them was |
| `Messages.HandlingSettles` | services/vectorizer/src/vectorizer/main.py:132-159 | without a Redis error the message moves from the processing list to the dead letters or the acknowledgements |
| `Messages.RecoveryGoesOn` | services/vectorizer/src/vectorizer/main.py:122-129 | handling the next pending message keeps the recovery's account, also with equal messages |
| `Messages.RecoveryEnds` | services/vectorizer/src/vectorizer/main.py:114-129 | when all pending messages are handled, the processing list is empty and all of them are resolved |
| `MessageFacts.EventsAreBooked` | services/vectorizer/src/vectorizer/main.py:39-175 | after any log: what arrived grew by its arrivals, and lost, acknowledged and dead-lettered messages by its handlings with that outcome |
| `MessageFacts.ItemHandles` | services/vectorizer/src/vectorizer/main.py:132-159 | one call handles at most its one message; it raised only with all attempts stopped or a message that cannot be indexed, and returned normally only if it can |
| `MessageFacts.RetrySucceeds` | services/vectorizer/src/vectorizer/main.py:162-175 | if attempt k is not stopped, k is 1 or at most max_retries, no attempt before it dies, and the message can be indexed, then it is, after at most k tries |
| `MessageFacts.RaiseTakesAll` | services/vectorizer/src/vectorizer/main.py:162-175 | a message raises for good only after max_retries tries, or one if that number is below 2 |
| `MessageFacts.TurnHandles` | services/vectorizer/src/vectorizer/main.py:90-111 | a turn brings its own arrivals and handles at most one message, the one at the right end of the input |
| `MessageFacts.TurnsHandle` | services/vectorizer/src/vectorizer/main.py:90-111 | the handlings of a run belong one to one to different turns, in their order, each with that turn's requests, and what arrived is what the turns run brought |
| `MessageFacts.PassHandles` | services/vectorizer/src/vectorizer/main.py:114-129 | the handlings of a recovery pass are those of the first pending messages, one to one and in order |
| `MessageFacts.LivesHandle` | services/vectorizer/src/vectorizer/main.py:39-87 | over any number of processes the arrivals are those of the turns run, and every handling is one of a message of some process |
| `MessageFacts.CarefulLivesLoseNothing` | services/vectorizer/src/vectorizer/main.py:132-159 | where no removal can be followed by a failing dead letter, no handling of any process loses a message |
| `MessageIndex.LivesAreSound` | services/vectorizer/src/vectorizer/main.py:178-246 | in every log, whatever is asked of the store is for the document of the message at hand, and every acknowledgement follows at once on an attempt that left nothing to index |
| `MessageIndex.FinishedStays` | services/vectorizer/src/vectorizer/qdrant.py:41-72 | over any log and from any index, what a finished upsert put into its collection is exactly what is there until that document is upserted there again |
| `MessageIndex.ChangeTouchesOne` | services/vectorizer/src/vectorizer/qdrant.py:41-107 | an upsert touches no collection but its own, which keeps its dimension, or is new and has the embedder's |
| `MessageIndex.StoreStaysFaithful` | services/vectorizer/src/vectorizer/qdrant.py:58-66 | over any log, every vector in the store is the embedding of the text beside it, if it was so at the start |
| `MessageIndex.AcknowledgedStays` | services/vectorizer/src/vectorizer/main.py:132-159 | an acknowledged document is at the end in its collection with exactly its chunks, unless it was upserted there again |
| `MessageIndex.AckIsAt` | services/vectorizer/src/vectorizer/main.py:158-159 | every acknowledgement in the books was given at an event of the log and recorded the store of that moment |
| `Consumer.Consumer.ProcessMessage` | services/vectorizer/src/vectorizer/main.py:178-246 | an attempt changes no more than one collection, by one upsert of the message's document as far as it gets; it returns normally if and only if nothing stops it and the message can be indexed, and then there is no document, no chunks, or exactly this document's points |
| `Consumer.Consumer.ProcessMessageWithRetry` | services/vectorizer/src/vectorizer/main.py:162-175 | at least one attempt, and at most max_retries if that is more than one; each but the last raises; raising takes all of them; the store is what these attempts make of it, and a normal return settles the message although earlier attempts stopped half-way |
| `Consumer.Consumer.Resolve` | services/vectorizer/src/vectorizer/main.py:136-159 | the lists after removal and dead letter, each applied or not, and how the call ends |
| `Consumer.Consumer.ProcessProcessingItem` | services/vectorizer/src/vectorizer/main.py:132-159 | the attempts, and unless the process dies in them, one removal and for a raising message one dead letter; lists, books and store are exactly what these events make of them |
| `Consumer.Consumer.DiesBeforeDeadLetter` | services/vectorizer/src/vectorizer/main.py:140-141 | for every malformed message there is a run of the code that loses it: out of the processing list, not in the failed list, not acknowledged |
| `Consumer.Consumer.RecoverProcessingQueue` | services/vectorizer/src/vectorizer/main.py:114-129 | the pending messages are handled in the order of the list until a signal, a Redis error or the end of the process; lists, books and store are exactly what that log makes of them; a pass that none of these ends empties the processing list and resolves every pending message, equal ones too |
| `Consumer.Consumer.Take` | services/vectorizer/src/vectorizer/main.py:93-97 | one message moves from the right end of the input to the left end of the processing list, whether or not the reply arrives |
| `Consumer.Consumer.Run` | services/vectorizer/src/vectorizer/main.py:90-111 | turns in order until a signal or the end of the process; what arrived grew by the arrivals of exactly these turns; lost, acknowledged and dead-lettered messages by exactly those handled that way; lists and store are exactly what the log makes of them |
| `Consumer.Consumer.Live` | services/vectorizer/src/vectorizer/main.py:39-87 | over any number of processes, each recovering and then polling, wherever they die: what arrived grew by the arrivals of the turns run, lost messages by exactly those removed after raising whose dead letter did not arrive, each handling has the requests of a message of one of the processes and raised only with all its attempts stopped or a message that cannot be indexed; lists, books and store are exactly what the log makes of them |
| `Vectorizer.WorkIsTrusted` | services/vectorizer/src/vectorizer/hierarchy.py:22-49 | the consumer's assumption that chunks are numbered by position holds of every configuration of prepare_chunks |
| `Vectorizer.SettledIsIndexed` | services/vectorizer/src/vectorizer/main.py:178-246 | an acknowledged document had no chunks, or its collection held exactly its prepared chunks, numbered by position, with ranges inside its source |
| `Vectorizer.Vectorize` | services/vectorizer/src/vectorizer/main.py:39-246 | from any input and index, over any number of processes: the input and the arrivals of the turns run are in a list, acknowledged or lost; lost and acknowledged messages are exactly those handled so; every acknowledgement was given at an event of the log, with exactly the prepared chunks in the store of that moment; and a document not upserted there since is there at the end with exactly these |
| `ArrivalOrder.NewerServedLast` | services/vectorizer/src/vectorizer/main.py:93-97 | of two messages that come once each, the newer is served after the older if and only if the older was served before the newer came |
| `ArrivalOrder.NewerWinsUnlessBothWait` | services/vectorizer/src/vectorizer/main.py:90-159 | with nothing stopped, the collection ends on the newer version of a document if and only if the older one was taken before the newer one came, and on the older one otherwise |
| `ArrivalOrder.EndsOnOlder` | services/vectorizer/src/vectorizer/main.py:90-159 | two versions that come together, and two turns with nothing stopped: the collection ends on the older one |
| `VersionStore.Store.SaveParsedPage` | services/parser/store.go:111-209 | a reported save has its whole effect, a refused one none, and a failed COMMIT all or none; the effect is that of `VersionRows` |
| `VersionStore.Store.RecordParseError` | services/parser/store.go:211-240 | logs the error and marks the document, or changes nothing |
| `VersionFacts.OpsKeepSound` | services/parser/store.go:111-240 | over any sequence of saves, errors and rollbacks: unique ids, versions under the hash of their text, and latest versions that exist |
| `VersionFacts.VersionsAreSound` | services/parser/store.go:177-204 | a version's text hashes to its key, and a document's latest version is its version under its latest hash |
| `VersionFacts.LatestIsLastSaved` | services/parser/store.go:192-200 | a document's latest hash is that of the last committed save of its URL |
| `VersionFacts.ChangedMeansDifferent` | services/parser/store.go:159-208 | a save reports a change if and only if its hash differs from that of the URL's previous save |
| `VersionFacts.ChangesAreDifferences` | services/parser/store.go:159-208 | the number of reported changes is the number of saves whose hash differs from the previous one |
| `VersionFacts.ErrorIsCurrent` | services/parser/store.go:137-240 | a document carries the last error recorded since its last save, and no other |
| `VersionRows.DocumentIsLastSaved` | services/parser/store.go:129-173 | over any sequence of transactions a URL has a document if and only if it was saved; it has the url, facts, document type and HTML hash of the last save, the time of that save or a later error, the last source that is not blank, and the id under which a save last found it in the urls table |
| `VersionRows.VersionsAreFirstSaves` | services/parser/store.go:177-187 | the versions of a document are exactly the different contents saved under its URL, each with the text, HTML hash, facts, type and source of its first save, and the time of the last save that returned to it |
| `VersionRows.SourcesAreLastLinks` | services/parser/store.go:262-276 | the sources of a document are exactly those it was saved from, each with the link of the last save |
| `VersionRows.ErrorsAreRecorded` | services/parser/store.go:211-240 | the error log holds exactly the recorded errors, in order, each under its domain |
| `VersionFacts.RowsPersist` | services/parser/store.go:129-187 | no transaction rewrites a version's text or renumbers a domain, document or version |
| `VersionFacts.OnlyTheTimeMoves` | services/parser/store.go:177-187 | a transaction changes an existing version's row if and only if it is a save of that content reported as a change at another time, and then only in its time |
| `VersionFacts.ReturnMovesTheTime` | services/parser/store.go:177-187 | saving a page, then other content, then the first again at another time, changes the row of the first version |
| `VersionFacts.SameContentSameVersion` | services/parser/store.go:177-208 | two reported changes name the same version if and only if they save the same content hash for the same URL; a return to old content reuses its version |
| `VersionReplay.Replay` | services/parser/store.go:111-240 | any history of calls on a new store, wherever its transactions fail and whatever another service does to the urls table between them, leaves the tables of a sequence of transactions that follows the calls, and answers what they report |
| `VersionReplay.RepliesAreTruthful` | services/parser/store.go:159-240 | the store is sound after any history, and a caller is told of a change if and only if no earlier save of the URL took effect or the last one had another hash |

## Left out

- `CrawlSearch.CrawlIsExact`: a page limit that was reached, cancellation, failed calls and a shared visited key are outside it; `PushesAreReachable` covers runs with them, and `LimitBoundsSources` those with a limit.
- HTTP, HTML tokenizing, URL parsing and the public suffix list: parameters of a crawl.
- JSON envelopes and their errors, configuration, logging, health servers, heartbeats, pipeline events and retry delays; only that an event call may fail is kept.
- `CleanPath.CleanPath`: percent-decoding works on bytes, one character each.
- `LargeBlock.SplitLargeBlock`: a negative CHUNK_TOKENS, for which Python slices from the end, is not modelled.
- Sampling: the quotient is exact; IEEE rounding of it is not modelled.
- summary_text and candidate_passages: a summary's text is any function of its kind, range, headings and chunks.
- collection_name and collection_for: a collection is any function of the document; a document that moves to another collection leaves its points in the old one.
- Payload indexes, the vector distance, and a batch size below 1.
- `Consumer.Consumer.ProcessProcessingItem`: one consumer of the processing list, as deployed; what a message stands for does not change while it waits.
- The oversized audit queue, whose errors are ignored.
- SHA-256 in content and chunk hashes: any function.
- Created, updated and seen timestamps of the tables. The mapper fills the urls table: it may hold anything.
- Other services' inserts into the domains table.
- The parser between commit and queue push, its rendering and PDF extraction, and the monitor service.
