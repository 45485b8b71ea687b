// The vectorizer put together: the reliable queue over the chunks that
// prepare_chunks makes and the vector store they are upserted into.
module Vectorizer {
  import opened Wrappers
  import opened Chunks
  import opened ChunkFacts
  import opened Consumer
  import opened Messages
  import opened MessageFacts
  import opened MessageIndex
  import opened MessageLog
  import opened Dedup
  import opened Hierarchy
  import opened HierarchyFacts
  import opened LargeBlock
  import opened VectorIndex
  import opened VectorIndexFacts

  // The configuration of prepare_chunks, and its two arbitrary functions.
  datatype Settings = Settings(
    chunker: Chunker, body: Summarizer, limits: Limits, maxChars: int, key: string -> string)

  // The chunks of a document's text, before sampling.
  function SourceChunks(settings: Settings, markdown: string): seq<Chunk> {
    ChunksOfDocument(settings.chunker, Truncated(Deduplicated(markdown, settings.key).markdown, settings.maxChars))
  }

  // What is indexed for it.
  function Prepare(settings: Settings, markdown: string): seq<Chunk> {
    Indexed(settings.chunker, settings.body, settings.limits, SourceChunks(settings, markdown))
  }

  function WorkOf(settings: Settings, lookup: string -> Lookup, collectionFor: Document -> string,
                  maxRetries: int): Work {
    Work(lookup, (document: Document) => Prepare(settings, document.markdown), collectionFor, maxRetries)
  }

  // Nothing need be assumed of the chunks.
  lemma {:induction false} WorkIsTrusted(settings: Settings, lookup: string -> Lookup,
                                         collectionFor: Document -> string, maxRetries: int, sink: Sink)
    requires Injective(sink.uuid)
    ensures Trusted(WorkOf(settings, lookup, collectionFor, maxRetries), sink)
  {
    var work := WorkOf(settings, lookup, collectionFor, maxRetries);
    hide ChunksOfDocument, Deduplicated, Indexed, Positional;
    forall document: Document
      ensures Positional(work.prepare(document))
    {
      var markdown := Truncated(Deduplicated(document.markdown, settings.key).markdown, settings.maxChars);
      PreparedIsPositional(settings.chunker, settings.body, settings.limits, markdown);
    }
  }

  // The collection holds this document's prepared chunks, each under the id of its
  // position and with its source range, and no other point of it.
  ghost predicate HoldsDocument(settings: Settings, sink: Sink, name: string, points: Points, document: Document) {
    var chunks, n := Prepare(settings, document.markdown), |SourceChunks(settings, document.markdown)|;
    && (forall i :: 0 <= i < |chunks| ==>
          chunks[i].index == i && InSource(chunks[i], n) && HasPoint(sink, name, points, document, chunks[i]))
    && (forall id :: id in points && points[id].payload.documentId == document.documentId ==>
          points[id].payload.chunkId < |chunks|
          && IsPointOf(sink, document, chunks[points[id].payload.chunkId], points[id]))
  }

  lemma {:induction false} HoldsAll(settings: Settings, sink: Sink, name: string, points: Points, document: Document)
    requires HoldsExactly(sink, name, points, document, Prepare(settings, document.markdown))
    ensures HoldsDocument(settings, sink, name, points, document)
  {
    hide Prepare, SourceChunks, InSource, HasPoint, IsPointOf;
    PreparedInSource(settings, document.markdown);
    PointsAreOfChunks(sink, name, points, document, Prepare(settings, document.markdown));
  }

  lemma {:induction false} PreparedInSource(settings: Settings, markdown: string)
    ensures var chunks := Prepare(settings, markdown);
            && Positional(chunks)
            && forall i :: 0 <= i < |chunks| ==> InSource(chunks[i], |SourceChunks(settings, markdown)|)
  {
    hide ChunksOfDocument, Deduplicated, Indexed, InSource;
    var source := SourceChunks(settings, markdown);
    ChunksArePositional(settings.chunker,
                        Truncated(Deduplicated(markdown, settings.key).markdown, settings.maxChars));
    IndexedFacts(settings.chunker, settings.body, settings.limits, source);
  }

  lemma {:induction false} PointsAreOfChunks(sink: Sink, name: string, points: Points, document: Document,
                                             chunks: seq<Chunk>)
    requires HoldsExactly(sink, name, points, document, chunks) && Positional(chunks)
    ensures forall id :: id in points && points[id].payload.documentId == document.documentId ==>
              points[id].payload.chunkId < |chunks|
              && IsPointOf(sink, document, chunks[points[id].payload.chunkId], points[id])
  {
    hide IdOf;
    forall id | id in points && points[id].payload.documentId == document.documentId
      ensures points[id].payload.chunkId < |chunks|
              && IsPointOf(sink, document, chunks[points[id].payload.chunkId], points[id])
    {
      var i := NewIdOf(sink, name, document, chunks, |chunks|, id);
      assert HasPoint(sink, name, points, document, chunks[i]);
    }
  }

  // What an acknowledgement is worth.
  ghost predicate IsIndexed(settings: Settings, lookup: string -> Lookup, collectionFor: Document -> string, sink: Sink,
                            ack: Ack) {
    match lookup(ack.raw)
    case Malformed => false
    case Missing => true
    case Found(document) =>
      var name := collectionFor(document);
      || Prepare(settings, document.markdown) == []
      || (name in ack.collections
          && HoldsDocument(settings, sink, name, ack.collections[name].points, document))
  }

  lemma {:induction false} SettledIsIndexed(settings: Settings, lookup: string -> Lookup,
                                            collectionFor: Document -> string, maxRetries: int, sink: Sink, ack: Ack)
    requires Settled(WorkOf(settings, lookup, collectionFor, maxRetries), sink, ack.raw, ack.collections)
    ensures IsIndexed(settings, lookup, collectionFor, sink, ack)
  {
    hide Prepare, HoldsDocument, HoldsExactly;
    var found := lookup(ack.raw);
    if found.Found? {
      var name := collectionFor(found.document);
      if Prepare(settings, found.document.markdown) != [] {
        HoldsAll(settings, sink, name, ack.collections[name].points, found.document);
      }
    }
  }

  // A document whose message was acknowledged, and that was not upserted into its
  // collection again, is there at the end with exactly its prepared chunks.
  ghost predicate LastsAt(settings: Settings, setup: Setup, es: seq<Event>, k: nat, collections: Collections)
    requires k < |es|
  {
    es[k].Concluded? && !es[k].handling.raised && Needs(setup.work, es[k].handling.raw) ==>
      var document := setup.work.lookup(es[k].handling.raw).document;
      var name := setup.work.collectionFor(document);
      Untouched(es, k, name, document.documentId) ==>
        name in collections && HoldsDocument(settings, setup.sink, name, collections[name].points, document)
  }

  lemma {:induction false} AcknowledgedLasts(settings: Settings, setup: Setup, w: World, es: seq<Event>, k: nat)
    requires Trusted(setup.work, setup.sink) && IndexKept(setup.sink, w.collections) && SoundLog(setup.work, es)
    requires forall document :: setup.work.prepare(document) == Prepare(settings, document.markdown)
    requires k < |es|
    ensures LastsAt(settings, setup, es, k, AfterEvents(setup, w, es).collections)
  {
    hide Prepare, HoldsDocument, HoldsExactly, Trusted, IndexKept, SoundLog, AfterEvents, Untouched;
    if es[k].Concluded? && !es[k].handling.raised && Needs(setup.work, es[k].handling.raw) {
      var c := Asked(setup.work, es[k].handling.raw, Finished);
      if Untouched(es, k, c.name, c.document.documentId) {
        AcknowledgedStays(setup, w, es, k);
        HoldsAll(settings, setup.sink, c.name, AfterEvents(setup, w, es).collections[c.name].points, c.document);
      }
    }
  }

  lemma {:induction false} AllLast(settings: Settings, lookup: string -> Lookup, collectionFor: Document -> string,
                                   maxRetries: int, setup: Setup, w: World, es: seq<Event>)
    requires setup.work == WorkOf(settings, lookup, collectionFor, maxRetries)
    requires Trusted(setup.work, setup.sink) && IndexKept(setup.sink, w.collections) && SoundLog(setup.work, es)
    ensures forall k :: 0 <= k < |es| ==> LastsAt(settings, setup, es, k, AfterEvents(setup, w, es).collections)
  {
    hide LastsAt, Prepare, Trusted, IndexKept, SoundLog, AfterEvents;
    forall k | 0 <= k < |es|
      ensures LastsAt(settings, setup, es, k, AfterEvents(setup, w, es).collections)
    {
      AcknowledgedLasts(settings, setup, w, es, k);
    }
  }

  // The acknowledgement was given at some event, recorded the store of that moment,
  // and was deserved.
  ghost predicate GivenAt(settings: Settings, lookup: string -> Lookup, collectionFor: Document -> string,
                          setup: Setup, w: World, es: seq<Event>, ack: Ack) {
    && IsIndexed(settings, lookup, collectionFor, setup.sink, ack)
    && exists k :: 0 <= k < |es| && es[k].Concluded? && !es[k].handling.raised && Applied(es[k].handling.remove)
                   && ack == Ack(es[k].handling.raw, StoreAt(setup, w, es, k))
  }

  lemma {:induction false} AcksAreGiven(settings: Settings, lookup: string -> Lookup, collectionFor: Document -> string,
                                        maxRetries: int, setup: Setup, w: World, es: seq<Event>)
    requires setup.work == WorkOf(settings, lookup, collectionFor, maxRetries) && w.history.acks == []
    requires AllSettled(setup.work, setup.sink, AfterEvents(setup, w, es).history.acks)
    ensures var acks := AfterEvents(setup, w, es).history.acks;
            forall i :: 0 <= i < |acks| ==> GivenAt(settings, lookup, collectionFor, setup, w, es, acks[i])
  {
    hide Settled, AfterEvents, IsIndexed, WorkOf, StoreAt;
    var acks := AfterEvents(setup, w, es).history.acks;
    forall i | 0 <= i < |acks|
      ensures GivenAt(settings, lookup, collectionFor, setup, w, es, acks[i])
    {
      SettledIsIndexed(settings, lookup, collectionFor, maxRetries, setup.sink, acks[i]);
      var k := AckIsAt(setup, w, es, i);
    }
  }

  // The whole vectorizer over any number of processes.  What was there and what
  // arrived is in a list, acknowledged or lost; the messages lost, acknowledged and
  // dead are exactly those handled that way; every acknowledgement was given at some
  // event, with exactly the document's prepared chunks in the store of that moment;
  // and they are still there at the end unless the document was upserted there again.
  method Vectorize(settings: Settings, lookup: string -> Lookup, collectionFor: Document -> string, maxRetries: int,
                   qdrant: QdrantSink, input: seq<string>, lives: seq<Life>)
    returns (consumer: Consumer, ghost logs: seq<LifeLog>)
    requires qdrant.Valid() && Injective(qdrant.sink.uuid) && IndexKept(qdrant.sink, qdrant.collections)
    modifies qdrant
    ensures fresh(consumer) && consumer.qdrant == qdrant
    ensures var setup := Setup(WorkOf(settings, lookup, collectionFor, maxRetries), qdrant.sink, qdrant.dimension,
                               qdrant.batchSize);
            var w := World(Lists(input, [], []), History(multiset(input), multiset{}, []), old(qdrant.collections));
            && LivesDid(setup, w, lives, logs)
            && consumer.Now() == AfterEvents(setup, w, AllEvents(logs))
            && Kept(consumer.lists, consumer.history) + consumer.history.lost
               == multiset(input) + ArrivedInLives(lives, logs, |lives|)
            && Accounted(w.lists, w.history, consumer.lists, consumer.history, Handlings(AllEvents(logs)))
            && (forall i :: 0 <= i < |consumer.history.acks| ==>
                  GivenAt(settings, lookup, collectionFor, setup, w, AllEvents(logs), consumer.history.acks[i]))
            && (forall k :: 0 <= k < |AllEvents(logs)| ==>
                  LastsAt(settings, setup, AllEvents(logs), k, qdrant.collections))
  {
    hide Settled, AllSettled, IndexKept, Trusted, Living, AfterEvents, AllEvents, Accounted, Handlings, OfLives,
         Careful, WorkOf, GivenAt, LastsAt;
    var work := WorkOf(settings, lookup, collectionFor, maxRetries);
    WorkIsTrusted(settings, lookup, collectionFor, maxRetries, qdrant.sink);
    consumer := new Consumer(work, qdrant, input);
    ghost var setup, w := consumer.Config(), consumer.Now();
    logs := consumer.Live(lives);
    AcksAreGiven(settings, lookup, collectionFor, maxRetries, setup, w, AllEvents(logs));
    LivesAreSound(setup, w, lives, logs, |logs|);
    assert logs[..|logs|] == logs;
    AllLast(settings, lookup, collectionFor, maxRetries, setup, w, AllEvents(logs));
  }
}
