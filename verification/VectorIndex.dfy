// qdrant.py: the points of a document in one collection, replaced by upserting
// the new ones in batches and then deleting what is left of the old.
module VectorIndex {
  import opened Wrappers
  import opened Chunks
  import opened Ranges
  import Decimal

  datatype Details = Details(
    url: string, finalUrl: Option<string>, domain: string, title: Option<string>, language: Option<string>,
    documentType: string, sourceUrl: Option<string>, statusCode: Option<int>, contentType: Option<string>,
    parsedAt: string)

  datatype Document = Document(documentId: int, versionId: int, contentHash: string, markdown: string, details: Details)

  // payload_for: everything about the document but its text, and about the chunk.
  datatype Payload = Payload(
    documentId: int, versionId: int, contentHash: string, details: Details,
    chunkId: nat, chunk: Chunk, embeddingModel: string)

  datatype Point = Point(vector: seq<real>, payload: Payload)

  type Points = map<string, Point>

  // uuid5 in the point namespace, the embedder and its model's name.
  datatype Sink = Sink(uuid: string -> string, embed: string -> seq<real>, model: string)

  function RawId(collection: string, documentId: int, contentHash: string, index: int): string {
    collection + ":" + Decimal.Print(documentId) + ":" + contentHash + ":" + Decimal.Print(index)
  }

  function PointId(sink: Sink, collection: string, documentId: int, contentHash: string, index: int): string {
    sink.uuid(RawId(collection, documentId, contentHash, index))
  }

  function IdOf(sink: Sink, collection: string, document: Document, chunk: Chunk): string {
    PointId(sink, collection, document.documentId, document.contentHash, chunk.index)
  }

  function PointFor(sink: Sink, document: Document, chunk: Chunk): Point {
    Point(sink.embed(chunk.text),
          Payload(document.documentId, document.versionId, document.contentHash, document.details,
                  chunk.index, chunk, sink.model))
  }

  // The collection after the first k chunks are upserted.
  function PutUpTo(sink: Sink, collection: string, points: Points, document: Document, chunks: seq<Chunk>,
                   k: nat): Points
    requires k <= |chunks|
  {
    if k == 0 then points
    else PutUpTo(sink, collection, points, document, chunks, k - 1)
           [IdOf(sink, collection, document, chunks[k - 1]) := PointFor(sink, document, chunks[k - 1])]
  }

  // The filters of the two deletes.
  predicate IsStale(document: Document, payload: Payload) {
    payload.documentId == document.documentId && payload.contentHash != document.contentHash
  }

  predicate IsSurplus(document: Document, count: nat, payload: Payload) {
    payload.documentId == document.documentId && payload.contentHash == document.contentHash && payload.chunkId >= count
  }

  function WithoutStale(points: Points, document: Document): Points {
    map id | id in points && !IsStale(document, points[id].payload) :: points[id]
  }

  function WithoutSurplus(points: Points, document: Document, count: nat): Points {
    map id | id in points && !IsSurplus(document, count, points[id].payload) :: points[id]
  }

  // How far upsert_document got before it ended or was stopped.
  datatype Progress = Put(count: nat) | Cleared | Finished

  function After(sink: Sink, collection: string, points: Points, document: Document, chunks: seq<Chunk>,
                 progress: Progress): Points
  {
    var n := |chunks|;
    match progress
    case Put(k) => PutUpTo(sink, collection, points, document, chunks, if k < n then k else n)
    case Cleared => WithoutStale(PutUpTo(sink, collection, points, document, chunks, n), document)
    case Finished =>
      WithoutSurplus(WithoutStale(PutUpTo(sink, collection, points, document, chunks, n), document), document, n)
  }

  // The progress that a number of requests makes: one request a batch, then the
  // two deletes.
  function Reached(n: nat, batchSize: nat, requests: nat): Progress
    requires batchSize >= 1
  {
    var batches := Count(n, batchSize);
    if requests <= batches then Put(UpTo(Start(requests, batchSize), n))
    else if requests == batches + 1 then Cleared
    else Finished
  }

  lemma {:induction false} PutBatch(sink: Sink, collection: string, points: Points, document: Document,
                                    chunks: seq<Chunk>,
                                    k: nat, batch: seq<Chunk>, j: nat)
    requires j <= |batch| && k + |batch| <= |chunks| && batch == chunks[k..k + |batch|]
    ensures PutUpTo(sink, collection, PutUpTo(sink, collection, points, document, chunks, k), document, batch, j)
         == PutUpTo(sink, collection, points, document, chunks, k + j)
  {
    hide IdOf, PointFor;
    if j > 0 {
      PutBatch(sink, collection, points, document, chunks, k, batch, j - 1);
    }
  }

  // The vector store: its collections, each of some dimension.
  datatype Collection = Collection(dimension: Option<nat>, points: Points)

  type Collections = map<string, Collection>

  // The collection is missing, or takes vectors of the embedder's dimension.
  predicate Fits(collections: Collections, name: string, dimension: nat) {
    name !in collections || collections[name].dimension in {None, Some(dimension)}
  }

  // Only collections that fit are remembered.
  ghost predicate Checked(ready: set<string>, collections: Collections, dimension: nat) {
    forall name :: name in ready ==> name in collections && Fits(collections, name, dimension)
  }

  function Opened(collections: Collections, name: string, dimension: nat): (present: Collections)
    ensures name in present
  {
    if name in collections then collections else collections[name := Collection(Some(dimension), map[])]
  }

  function WithPoints(collections: Collections, name: string, points: Points): (after: Collections)
    requires name in collections
    ensures after.Keys == collections.Keys && after[name].points == points
  {
    collections[name := Collection(collections[name].dimension, points)]
  }

  lemma {:induction false} Overwrites(collections: Collections, name: string, first: Points, second: Points)
    requires name in collections
    ensures WithPoints(WithPoints(collections, name, first), name, second) == WithPoints(collections, name, second)
  {
  }

  // Points may go from one collection; what is left there, its dimension and the
  // other collections stay as they were.
  ghost predicate OnlyRemoves(before: Collections, after: Collections, name: string) {
    && name in before && after.Keys == before.Keys
    && after[name].dimension == before[name].dimension
    && (forall other :: other in before && other != name ==> after[other] == before[other])
    && (forall id :: id in after[name].points ==>
          id in before[name].points && after[name].points[id] == before[name].points[id])
  }

  // What is removed determines the collections.
  lemma {:induction false} StaleRemoved(before: Collections, after: Collections, name: string, document: Document)
    requires OnlyRemoves(before, after, name)
    requires forall id :: id in before[name].points ==>
      var payload := before[name].points[id].payload;
      id in after[name].points <==>
      payload.documentId != document.documentId || payload.contentHash == document.contentHash
    ensures after == WithPoints(before, name, WithoutStale(before[name].points, document))
  {
    assert after[name].points == WithoutStale(before[name].points, document);
    assert after[name] == Collection(before[name].dimension, after[name].points);
  }

  lemma {:induction false} SurplusRemoved(before: Collections, after: Collections, name: string, document: Document,
                                          count: nat)
    requires OnlyRemoves(before, after, name)
    requires forall id :: id in before[name].points ==>
      var payload := before[name].points[id].payload;
      id in after[name].points <==>
      payload.documentId != document.documentId || payload.contentHash != document.contentHash
      || payload.chunkId < count
    ensures after == WithPoints(before, name, WithoutSurplus(before[name].points, document, count))
  {
    assert after[name].points == WithoutSurplus(before[name].points, document, count);
    assert after[name] == Collection(before[name].dimension, after[name].points);
  }

  // Points do not decide what fits.
  lemma {:induction false} PointsDoNotMatter(collections: Collections, name: string, points: Points, dimension: nat)
    requires name in collections
    ensures forall other :: Fits(WithPoints(collections, name, points), other, dimension) <==>
                            Fits(collections, other, dimension)
  {
  }

  lemma {:induction false} NothingPut(sink: Sink, name: string, collections: Collections, document: Document,
                                      chunks: seq<Chunk>)
    requires name in collections
    ensures collections
         == WithPoints(collections, name, PutUpTo(sink, name, collections[name].points, document, chunks, 0))
  {
  }

  // One more batch.
  lemma {:induction false} BatchPuts(sink: Sink, name: string, collections: Collections, document: Document,
                                     chunks: seq<Chunk>, start: nat, size: nat)
    requires name in collections && start < |chunks|
    ensures var before, batch := collections[name].points, Slice(chunks, start, size);
            var points := PutUpTo(sink, name, before, document, chunks, start);
            WithPoints(WithPoints(collections, name, points), name,
                       PutUpTo(sink, name, points, document, batch, |batch|))
            == WithPoints(collections, name,
                          PutUpTo(sink, name, before, document, chunks, UpTo(start + size, |chunks|)))
  {
    var before, batch := collections[name].points, Slice(chunks, start, size);
    var points := PutUpTo(sink, name, before, document, chunks, start);
    hide IdOf, PointFor;
    PutBatch(sink, name, before, document, chunks, start, batch, |batch|);
    Overwrites(collections, name, points, PutUpTo(sink, name, points, document, batch, |batch|));
    hide PutUpTo, WithPoints;
  }

  lemma {:induction false} StopsInside(n: nat, batchSize: nat, budget: nat)
    requires batchSize >= 1
    ensures budget > Count(n, batchSize) ==> Start(Count(n, batchSize), batchSize) >= n
  {
    CountReaches(n, batchSize);
  }

  class QdrantSink {
    const sink: Sink
    const dimension: nat
    const batchSize: Positive
    var collections: Collections
    var ready: set<string>

    constructor (sink: Sink, dimension: nat, batchSize: Positive, collections: Collections)
      ensures this.sink == sink && this.dimension == dimension && this.batchSize == batchSize
      ensures this.collections == collections && ready == {} && Valid()
    {
      this.sink, this.dimension, this.batchSize := sink, dimension, batchSize;
      this.collections, ready := collections, {};
    }

    ghost predicate Valid()
      reads this
    {
      Checked(ready, collections, dimension)
    }

    // A new process knows of no collection yet.
    method Restart()
      requires Valid()
      modifies this`ready
      ensures Valid() && ready == {}
    {
      ready := {};
    }

    // A missing collection is created; one of another dimension is refused.
    method EnsureCollection(name: string) returns (ok: bool)
      requires Valid()
      modifies this
      ensures Valid()
      ensures ok <==> Fits(old(collections), name, dimension)
      ensures ready == if ok then old(ready) + {name} else old(ready)
      ensures collections == Opened(old(collections), name, dimension)
      ensures collections == if name in old(collections) then old(collections)
                             else old(collections)[name := Collection(Some(dimension), map[])]
    {
      if name in ready {
        return true;
      }
      if name !in collections {
        collections := collections[name := Collection(Some(dimension), map[])];
        ready := ready + {name};
        return true;
      }
      var size := collections[name].dimension;
      if size.Some? && size.value != dimension {
        return false;
      }
      ready := ready + {name};
      return true;
    }

    method UpsertBatches(name: string, document: Document, chunks: seq<Chunk>, budget: nat) returns (requests: nat)
      requires Valid() && name in collections
      modifies this`collections
      ensures Valid() && requests == UpTo(budget, Count(|chunks|, batchSize))
      ensures collections == WithPoints(old(collections), name,
        PutUpTo(sink, name, old(collections)[name].points, document, chunks,
                UpTo(Start(requests, batchSize), |chunks|)))
    {
      hide PutUpTo, WithPoints, Fits;
      var start := 0;
      requests := 0;
      NothingPut(sink, name, collections, document, chunks);
      ghost var before, collections0 := collections[name].points, collections;
      while start < |chunks| && requests < budget
        invariant start == Start(requests, batchSize) && requests <= budget
        invariant requests + Count(Minus(|chunks|, start), batchSize) == Count(|chunks|, batchSize)
        invariant Valid() && name in collections
        invariant collections == WithPoints(
          collections0, name, PutUpTo(sink, name, before, document, chunks, UpTo(start, |chunks|)))
      {
        var batch, points := Slice(chunks, start, batchSize), collections[name].points;
        BatchPuts(sink, name, collections0, document, chunks, start, batchSize);
        PointsDoNotMatter(collections, name, PutUpTo(sink, name, points, document, batch, |batch|), dimension);
        collections := WithPoints(collections, name, PutUpTo(sink, name, points, document, batch, |batch|));
        start, requests := start + batchSize, requests + 1;
      }
    }

    // No point of the document with another hash is left; all other points stay.
    method DeleteStaleVersions(name: string, document: Document)
      requires Valid() && name in collections
      modifies this`collections
      ensures Valid() && OnlyRemoves(old(collections), collections, name)
      ensures forall id :: id in old(collections)[name].points ==>
        var payload := old(collections)[name].points[id].payload;
        id in collections[name].points <==>
        payload.documentId != document.documentId || payload.contentHash == document.contentHash
    {
      collections := WithPoints(collections, name, WithoutStale(collections[name].points, document));
    }

    // No point of the document with this hash is left from the chunk count on; all
    // other points stay.
    method DeleteSurplusCurrentVersion(name: string, document: Document, count: nat)
      requires Valid() && name in collections
      modifies this`collections
      ensures Valid() && OnlyRemoves(old(collections), collections, name)
      ensures forall id :: id in old(collections)[name].points ==>
        var payload := old(collections)[name].points[id].payload;
        id in collections[name].points <==>
        payload.documentId != document.documentId || payload.contentHash != document.contentHash
        || payload.chunkId < count
    {
      collections := WithPoints(collections, name, WithoutSurplus(collections[name].points, document, count));
    }

    // upsert_document, stopped when `budget` requests to the store have been made.
    // It replaces one collection by what its requests make of it.
    method UpsertDocument(name: string, document: Document, chunks: seq<Chunk>, budget: nat)
      returns (accepted: bool, progress: Progress)
      requires Valid()
      modifies this
      ensures Valid()
      ensures accepted <==> Fits(old(collections), name, dimension)
      ensures !accepted ==> collections == old(collections) && ready == old(ready)
      ensures accepted ==> progress == Reached(|chunks|, batchSize, budget)
      ensures accepted ==>
        var present := Opened(old(collections), name, dimension);
        collections == WithPoints(present, name, After(sink, name, present[name].points, document, chunks, progress))
    {
      hide PutUpTo, WithoutStale, WithoutSurplus, OnlyRemoves, IsStale, IsSurplus, Checked;
      accepted := EnsureCollection(name);
      progress := Put(0);
      if !accepted {
        return;
      }
      StopsInside(|chunks|, batchSize, budget);
      var requests := UpsertBatches(name, document, chunks, budget);
      progress := Put(UpTo(Start(requests, batchSize), |chunks|));
      if requests < budget {
        ghost var before := collections;
        DeleteStaleVersions(name, document);
        StaleRemoved(before, collections, name, document);
        progress := Cleared;
        if requests + 1 < budget {
          before := collections;
          DeleteSurplusCurrentVersion(name, document, |chunks|);
          SurplusRemoved(before, collections, name, document, |chunks|);
          progress := Finished;
        }
      }
    }
  }
}
