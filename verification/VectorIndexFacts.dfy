// What upsert_document leaves in a collection, when it finishes and when it is
// stopped anywhere and run again.
module VectorIndexFacts {
  import opened Chunks
  import opened VectorIndex
  import Decimal

  ghost predicate Injective(f: string -> string) {
    forall a, b :: f(a) == f(b) ==> a == b
  }

  // Every point is stored under the id that its own payload gives.
  ghost predicate WellKept(sink: Sink, collection: string, points: Points) {
    forall id :: id in points ==> IsOwnId(sink, collection, id, points[id].payload)
  }

  ghost predicate IsOwnId(sink: Sink, collection: string, id: string, payload: Payload) {
    id == sink.uuid(collection + ":" + Decimal.Print(payload.documentId) + ":" + payload.contentHash + ":"
                    + Decimal.Print(payload.chunkId))
  }

  // What is stored for a chunk, field by field: the embedding of its text, and a
  // payload that tells the document's version, the chunk and the model.
  ghost predicate IsPointOf(sink: Sink, document: Document, chunk: Chunk, point: Point) {
    && point.vector == sink.embed(chunk.text)
    && point.payload.documentId == document.documentId
    && point.payload.versionId == document.versionId
    && point.payload.contentHash == document.contentHash
    && point.payload.details == document.details
    && point.payload.chunkId == chunk.index
    && point.payload.chunk == chunk
    && point.payload.embeddingModel == sink.model
  }

  lemma {:induction false} PointForIs(sink: Sink, document: Document, chunk: Chunk)
    ensures IsPointOf(sink, document, chunk, PointFor(sink, document, chunk))
  {
  }

  // The fields leave no choice.
  lemma {:induction false} PointsAgree(sink: Sink, document: Document, chunk: Chunk, a: Point, b: Point)
    requires IsPointOf(sink, document, chunk, a) && IsPointOf(sink, document, chunk, b)
    ensures a == b
  {
  }

  // A text without colons, up to the first colon and from the last colon on.
  lemma {:induction false} FirstColon(a: string, x: string, b: string, y: string)
    requires ':' !in a && ':' !in b && a + ":" + x == b + ":" + y
    ensures a == b && x == y
  {
    var s := a + ":" + x;
    assert s[|a|] == ':' && s[|b|] == ':';
    assert s[..|a|] == a && s[..|b|] == b && s[|a| + 1..] == x && s[|b| + 1..] == y;
  }

  lemma {:induction false} LastColon(x: string, a: string, y: string, b: string)
    requires ':' !in a && ':' !in b && x + ":" + a == y + ":" + b
    ensures x == y && a == b
  {
    var s := x + ":" + a;
    assert s[|x|] == ':' && s[|y|] == ':';
    assert s[..|x|] == x && s[..|y|] == y && s[|x| + 1..] == a && s[|y| + 1..] == b;
  }

  // Within a collection, a point id stands for one document, hash and index.
  lemma {:induction false} PointIdsAreUnique(sink: Sink, collection: string, d: int, h: string, i: int, e: int,
                                             g: string, j: int)
    requires Injective(sink.uuid)
    ensures PointId(sink, collection, d, h, i) == PointId(sink, collection, e, g, j) <==> d == e && h == g && i == j
  {
    if PointId(sink, collection, d, h, i) == PointId(sink, collection, e, g, j) {
      Decimal.PrintIsUnique(d, e);
      Decimal.PrintIsUnique(e, d);
      Decimal.PrintIsUnique(i, j);
      Decimal.PrintIsUnique(j, i);
      RawIdsAreUnique(collection, Decimal.Print(d), h, Decimal.Print(i), Decimal.Print(e), g, Decimal.Print(j));
    }
  }

  lemma {:induction false} RawIdsAreUnique(collection: string, d: string, h: string, i: string, e: string, g: string,
                                           j: string)
    requires ':' !in d && ':' !in e && ':' !in i && ':' !in j
    requires collection + ":" + d + ":" + h + ":" + i == collection + ":" + e + ":" + g + ":" + j
    ensures d == e && h == g && i == j
  {
    LastColon(collection + ":" + d + ":" + h, i, collection + ":" + e + ":" + g, j);
    var s := collection + ":" + d + ":" + h;
    assert s[|collection| + 1..] == d + ":" + h;
    assert s[|collection| + 1..] == e + ":" + g;
    FirstColon(d, h, e, g);
  }

  // The ids of the first k chunks.
  ghost function NewIds(sink: Sink, collection: string, document: Document, chunks: seq<Chunk>, k: nat): set<string>
    requires k <= |chunks|
  {
    if k == 0 then {}
    else NewIds(sink, collection, document, chunks, k - 1) + {IdOf(sink, collection, document, chunks[k - 1])}
  }

  lemma {:induction false} NewIdAt(sink: Sink, collection: string, document: Document, chunks: seq<Chunk>, k: nat,
                                   i: nat)
    requires i < k <= |chunks|
    ensures IdOf(sink, collection, document, chunks[i]) in NewIds(sink, collection, document, chunks, k)
  {
    hide IdOf;
    if i < k - 1 {
      NewIdAt(sink, collection, document, chunks, k - 1, i);
    }
  }

  lemma {:induction false} NewIdOf(sink: Sink, collection: string, document: Document, chunks: seq<Chunk>, k: nat,
                                   id: string) returns (i: nat)
    requires k <= |chunks| && id in NewIds(sink, collection, document, chunks, k)
    ensures i < k && id == IdOf(sink, collection, document, chunks[i])
  {
    hide IdOf;
    if id == IdOf(sink, collection, document, chunks[k - 1]) {
      i := k - 1;
    } else {
      i := NewIdOf(sink, collection, document, chunks, k - 1, id);
    }
  }

  // Upserting k chunks adds their ids, and leaves every other point as it was.
  lemma {:induction false} PutsAdd(sink: Sink, collection: string, points: Points, document: Document,
                                   chunks: seq<Chunk>, k: nat)
    requires k <= |chunks|
    ensures var put := PutUpTo(sink, collection, points, document, chunks, k);
            var added := NewIds(sink, collection, document, chunks, k);
            put.Keys == points.Keys + added && forall id :: id in points && id !in added ==> put[id] == points[id]
  {
    hide IdOf, PointFor;
    if k > 0 {
      PutsAdd(sink, collection, points, document, chunks, k - 1);
    }
  }

  lemma {:induction false} ChunkIdsDiffer(sink: Sink, collection: string, document: Document, chunks: seq<Chunk>,
                                          i: nat, j: nat)
    requires Injective(sink.uuid) && Positional(chunks) && i < j < |chunks|
    ensures IdOf(sink, collection, document, chunks[i]) != IdOf(sink, collection, document, chunks[j])
  {
    PointIdsAreUnique(sink, collection, document.documentId, document.contentHash, i,
                      document.documentId, document.contentHash, j);
  }

  // A chunk that was put stays put: no later chunk has its id.
  lemma {:induction false} PutHolds(sink: Sink, collection: string, points: Points, document: Document,
                                    chunks: seq<Chunk>, k: nat, i: nat)
    requires Injective(sink.uuid) && Positional(chunks) && i < k <= |chunks|
    ensures var put := PutUpTo(sink, collection, points, document, chunks, k);
            var id := IdOf(sink, collection, document, chunks[i]);
            id in put && IsPointOf(sink, document, chunks[i], put[id])
  {
    PutStays(sink, collection, points, document, chunks, k, i);
    PointForIs(sink, document, chunks[i]);
    hide PutUpTo, IdOf, PointFor, IsPointOf;
  }

  lemma {:induction false} PutStays(sink: Sink, collection: string, points: Points, document: Document,
                                    chunks: seq<Chunk>, k: nat, i: nat)
    requires Injective(sink.uuid) && Positional(chunks) && i < k <= |chunks|
    ensures var put := PutUpTo(sink, collection, points, document, chunks, k);
            var id := IdOf(sink, collection, document, chunks[i]);
            id in put && put[id] == PointFor(sink, document, chunks[i])
  {
    hide IdOf, PointFor;
    if i < k - 1 {
      PutStays(sink, collection, points, document, chunks, k - 1, i);
      ChunkIdsDiffer(sink, collection, document, chunks, i, k - 1);
    }
  }

  // The points of all other documents.
  function OthersOf(points: Points, documentId: int): Points {
    map id | id in points && points[id].payload.documentId != documentId :: points[id]
  }

  // The points of this document are exactly those of its chunks, one each.
  ghost predicate HoldsExactly(sink: Sink, collection: string, points: Points, document: Document, chunks: seq<Chunk>) {
    && (forall i :: 0 <= i < |chunks| ==> HasPoint(sink, collection, points, document, chunks[i]))
    && (forall id :: id in points && points[id].payload.documentId == document.documentId ==>
          id in NewIds(sink, collection, document, chunks, |chunks|))
  }

  ghost predicate HasPoint(sink: Sink, collection: string, points: Points, document: Document, chunk: Chunk) {
    var id := IdOf(sink, collection, document, chunk);
    id in points && IsPointOf(sink, document, chunk, points[id])
  }

  // A point of another document has none of the new ids.
  lemma {:induction false} OthersAreNotNew(sink: Sink, collection: string, points: Points, document: Document,
                                           chunks: seq<Chunk>, k: nat, id: string)
    requires Injective(sink.uuid) && Positional(chunks) && k <= |chunks| && WellKept(sink, collection, points)
    requires id in points && id in NewIds(sink, collection, document, chunks, k)
    ensures points[id].payload.documentId == document.documentId
  {
    var i := NewIdOf(sink, collection, document, chunks, k, id);
    var payload := points[id].payload;
    assert IsOwnId(sink, collection, id, payload);
    PointIdsAreUnique(sink, collection, document.documentId, document.contentHash, i,
                      payload.documentId, payload.contentHash, payload.chunkId);
  }

  // Upserts keep every point under its own id and other documents untouched.
  lemma {:induction false} PutsKeep(sink: Sink, collection: string, points: Points, document: Document,
                                    chunks: seq<Chunk>, k: nat)
    requires Injective(sink.uuid) && Positional(chunks) && k <= |chunks| && WellKept(sink, collection, points)
    ensures var put := PutUpTo(sink, collection, points, document, chunks, k);
            && WellKept(sink, collection, put)
            && OthersOf(put, document.documentId) == OthersOf(points, document.documentId)
  {
    var put := PutUpTo(sink, collection, points, document, chunks, k);
    var added := NewIds(sink, collection, document, chunks, k);
    PutsAdd(sink, collection, points, document, chunks, k);
    forall id | id in put
      ensures IsOwnId(sink, collection, id, put[id].payload)
      ensures id in added ==> put[id].payload.documentId == document.documentId
    {
      if id in added {
        var i := NewIdOf(sink, collection, document, chunks, k, id);
        PutHolds(sink, collection, points, document, chunks, k, i);
      } else {
        assert IsOwnId(sink, collection, id, points[id].payload);
      }
    }
    forall id | id in points && id in added
      ensures points[id].payload.documentId == document.documentId
    {
      OthersAreNotNew(sink, collection, points, document, chunks, k, id);
    }
  }

  // At every stopping point, the collection is well kept and other documents are
  // untouched.
  lemma {:induction false} EveryStopKeeps(sink: Sink, collection: string, points: Points, document: Document,
                                          chunks: seq<Chunk>, progress: Progress)
    requires Injective(sink.uuid) && Positional(chunks) && WellKept(sink, collection, points)
    ensures var after := After(sink, collection, points, document, chunks, progress);
            && WellKept(sink, collection, after)
            && OthersOf(after, document.documentId) == OthersOf(points, document.documentId)
  {
    var k := if progress.Put? && progress.count < |chunks| then progress.count else |chunks|;
    PutsKeep(sink, collection, points, document, chunks, k);
    hide PutUpTo;
    DeletesKeep(sink, collection, PutUpTo(sink, collection, points, document, chunks, k), document, |chunks|);
  }

  lemma {:induction false} DeletesKeep(sink: Sink, collection: string, points: Points, document: Document, count: nat)
    requires WellKept(sink, collection, points)
    ensures var cleared := WithoutStale(points, document);
            && WellKept(sink, collection, cleared)
            && OthersOf(cleared, document.documentId) == OthersOf(points, document.documentId)
            && WellKept(sink, collection, WithoutSurplus(cleared, document, count))
            && OthersOf(WithoutSurplus(cleared, document, count), document.documentId) ==
               OthersOf(points, document.documentId)
  {
    var cleared := WithoutStale(points, document);
    forall id | id in cleared
      ensures IsOwnId(sink, collection, id, cleared[id].payload)
    {
      assert IsOwnId(sink, collection, id, points[id].payload);
    }
  }

  // No new point is deleted, and a point of the document that survives both
  // deletes is one of the new ones.
  lemma {:induction false} NewSurvives(sink: Sink, collection: string, points: Points, document: Document,
                                       chunks: seq<Chunk>, i: nat)
    requires Injective(sink.uuid) && Positional(chunks) && i < |chunks|
    ensures HasPoint(sink, collection, After(sink, collection, points, document, chunks, Cleared), document, chunks[i])
    ensures HasPoint(sink, collection, After(sink, collection, points, document, chunks, Finished), document, chunks[i])
  {
    PutHolds(sink, collection, points, document, chunks, |chunks|, i);
    hide PutUpTo, IdOf;
  }

  lemma {:induction false} SurvivorIsNew(sink: Sink, collection: string, points: Points, document: Document,
                                         chunks: seq<Chunk>,
                                         after: Points, id: string)
    requires Injective(sink.uuid) && Positional(chunks) && WellKept(sink, collection, points)
    requires after == After(sink, collection, points, document, chunks, Finished)
    requires id in after && after[id].payload.documentId == document.documentId
    ensures id in NewIds(sink, collection, document, chunks, |chunks|)
  {
    EveryStopKeeps(sink, collection, points, document, chunks, Finished);
    var payload := after[id].payload;
    assert IsOwnId(sink, collection, id, payload);
    assert payload.contentHash == document.contentHash && payload.chunkId < |chunks| by { hide PutUpTo; }
    NewIdAt(sink, collection, document, chunks, |chunks|, payload.chunkId);
  }

  // A finished upsert leaves exactly the chunks' points for the document, and
  // every other document as it was.
  lemma {:induction false} FinishedReconciles(sink: Sink, collection: string, points: Points, document: Document,
                                              chunks: seq<Chunk>)
    requires Injective(sink.uuid) && Positional(chunks) && WellKept(sink, collection, points)
    ensures var after := After(sink, collection, points, document, chunks, Finished);
            && WellKept(sink, collection, after)
            && HoldsExactly(sink, collection, after, document, chunks)
            && OthersOf(after, document.documentId) == OthersOf(points, document.documentId)
  {
    hide After;
    EveryStopKeeps(sink, collection, points, document, chunks, Finished);
    var after := After(sink, collection, points, document, chunks, Finished);
    forall i | 0 <= i < |chunks|
      ensures HasPoint(sink, collection, after, document, chunks[i])
    {
      NewSurvives(sink, collection, points, document, chunks, i);
    }
    forall id | id in after && after[id].payload.documentId == document.documentId
      ensures id in NewIds(sink, collection, document, chunks, |chunks|)
    {
      SurvivorIsNew(sink, collection, points, document, chunks, after, id);
    }
  }

  ghost predicate IsPointAt(points: Points, documentId: int, i: nat, id: string) {
    id in points && points[id].payload.documentId == documentId && points[id].payload.chunkId == i
  }

  // After a finished upsert the document has exactly one point for each position, and
  // it is that chunk's; and no point for any other position.
  lemma {:induction false} OnePointEach(sink: Sink, collection: string, points: Points, document: Document,
                                        chunks: seq<Chunk>, i: nat)
    requires Positional(chunks) && HoldsExactly(sink, collection, points, document, chunks)
    ensures i < |chunks| <==> exists id :: IsPointAt(points, document.documentId, i, id)
    ensures forall id, other ::
      IsPointAt(points, document.documentId, i, id) && IsPointAt(points, document.documentId, i, other) ==>
        id == other
    ensures i < |chunks| ==>
      forall id :: IsPointAt(points, document.documentId, i, id) ==> IsPointOf(sink, document, chunks[i], points[id])
  {
    if i < |chunks| {
      assert HasPoint(sink, collection, points, document, chunks[i]);
      assert IsPointAt(points, document.documentId, i, IdOf(sink, collection, document, chunks[i]));
    }
    hide IdOf;
    forall id | IsPointAt(points, document.documentId, i, id)
      ensures i < |chunks| && id == IdOf(sink, collection, document, chunks[i])
    {
      var j := NewIdOf(sink, collection, document, chunks, |chunks|, id);
      assert HasPoint(sink, collection, points, document, chunks[j]);
    }
  }

  // The vector is the embedding of the text that the payload carries, and the payload
  // tells the chunk's own index and the model.
  predicate IsFaithful(sink: Sink, point: Point) {
    && point.vector == sink.embed(point.payload.chunk.text)
    && point.payload.chunkId == point.payload.chunk.index && point.payload.embeddingModel == sink.model
  }

  ghost predicate AllFaithful(sink: Sink, points: Points) {
    forall id :: id in points ==> IsFaithful(sink, points[id])
  }

  // At every stopping point, every point is one that was there, or one of this
  // document's chunks.
  lemma {:induction false} EveryStopPutsChunks(sink: Sink, collection: string, points: Points, document: Document,
                                               chunks: seq<Chunk>, progress: Progress, id: string)
    requires id in After(sink, collection, points, document, chunks, progress)
    ensures var point := After(sink, collection, points, document, chunks, progress)[id];
            || (id in points && point == points[id])
            || (exists i :: 0 <= i < |chunks| && IsPointOf(sink, document, chunks[i], point))
  {
    var k := if progress.Put? && progress.count < |chunks| then progress.count else |chunks|;
    PutsAreChunks(sink, collection, points, document, chunks, k, id);
    hide PutUpTo, IsPointOf;
  }

  lemma {:induction false} PutsAreChunks(sink: Sink, collection: string, points: Points, document: Document,
                                         chunks: seq<Chunk>, k: nat, id: string)
    requires k <= |chunks|
    ensures var put := PutUpTo(sink, collection, points, document, chunks, k);
            id in put ==>
            || (id in points && put[id] == points[id])
            || (exists i :: 0 <= i < |chunks| && IsPointOf(sink, document, chunks[i], put[id]))
  {
    hide IdOf, PointFor, IsPointOf;
    if k > 0 {
      PutsAreChunks(sink, collection, points, document, chunks, k - 1, id);
      PointForIs(sink, document, chunks[k - 1]);
    }
  }

  // Hence faithful points stay faithful at every stopping point.
  lemma {:induction false} EveryStopIsFaithful(sink: Sink, collection: string, points: Points, document: Document,
                                               chunks: seq<Chunk>, progress: Progress)
    requires AllFaithful(sink, points)
    ensures AllFaithful(sink, After(sink, collection, points, document, chunks, progress))
  {
    hide After;
    forall id | id in After(sink, collection, points, document, chunks, progress)
      ensures IsFaithful(sink, After(sink, collection, points, document, chunks, progress)[id])
    {
      EveryStopPutsChunks(sink, collection, points, document, chunks, progress, id);
    }
  }

  // Between the deletes, nothing of other hashes is left and nothing else is gone;
  // before them, nothing is gone.
  lemma {:induction false} StopsInOrder(sink: Sink, collection: string, points: Points, document: Document,
                                        chunks: seq<Chunk>, k: nat, id: string)
    requires id in points
    ensures id in After(sink, collection, points, document, chunks, Put(k))
    ensures id in After(sink, collection, points, document, chunks, Put(|chunks|))
    ensures var full := After(sink, collection, points, document, chunks, Put(|chunks|));
            id in After(sink, collection, points, document, chunks, Cleared) <==>
            full[id].payload.documentId != document.documentId || full[id].payload.contentHash == document.contentHash
  {
    PutsAdd(sink, collection, points, document, chunks, |chunks|);
    PutsAdd(sink, collection, points, document, chunks, if k < |chunks| then k else |chunks|);
    hide PutUpTo;
  }

  // The two conditions leave no choice: they determine the whole collection.
  lemma {:induction false} ReconciledIsUnique(sink: Sink, collection: string, a: Points, b: Points,
                                              document: Document, chunks: seq<Chunk>)
    requires HoldsExactly(sink, collection, a, document, chunks) && HoldsExactly(sink, collection, b, document, chunks)
    requires OthersOf(a, document.documentId) == OthersOf(b, document.documentId)
    ensures a == b
  {
    PointCarriesOver(sink, collection, a, b, document, chunks);
    PointCarriesOver(sink, collection, b, a, document, chunks);
  }

  lemma {:induction false} PointCarriesOver(sink: Sink, collection: string, a: Points, b: Points, document: Document,
                                            chunks: seq<Chunk>)
    requires HoldsExactly(sink, collection, a, document, chunks) && HoldsExactly(sink, collection, b, document, chunks)
    requires OthersOf(a, document.documentId) == OthersOf(b, document.documentId)
    ensures forall id :: id in a ==> id in b && b[id] == a[id]
  {
    hide IdOf, PointFor;
    forall id | id in a
      ensures id in b && b[id] == a[id]
    {
      if a[id].payload.documentId == document.documentId {
        var i := NewIdOf(sink, collection, document, chunks, |chunks|, id);
        assert HasPoint(sink, collection, a, document, chunks[i]) && HasPoint(sink, collection, b, document, chunks[i]);
        PointsAgree(sink, document, chunks[i], a[id], b[id]);
      } else {
        assert OthersOf(a, document.documentId)[id] == a[id];
        assert id in OthersOf(b, document.documentId);
      }
    }
  }

  // Stopping anywhere and running again ends where one clean run ends.
  lemma {:induction false} RerunRepairs(sink: Sink, collection: string, points: Points, document: Document,
                                        chunks: seq<Chunk>, stop: Progress)
    requires Injective(sink.uuid) && Positional(chunks) && WellKept(sink, collection, points)
    ensures var stopped := After(sink, collection, points, document, chunks, stop);
            After(sink, collection, stopped, document, chunks, Finished) ==
            After(sink, collection, points, document, chunks, Finished)
  {
    hide After;
    var stopped := After(sink, collection, points, document, chunks, stop);
    EveryStopKeeps(sink, collection, points, document, chunks, stop);
    FinishedReconciles(sink, collection, points, document, chunks);
    FinishedReconciles(sink, collection, stopped, document, chunks);
    ReconciledIsUnique(sink, collection, After(sink, collection, stopped, document, chunks, Finished),
                       After(sink, collection, points, document, chunks, Finished), document, chunks);
  }

  ghost predicate IsIndexed(points: Points, documentId: int) {
    exists id :: id in points && points[id].payload.documentId == documentId
  }

  // A document that had points has points at every stopping point.
  lemma {:induction false} NeverWithoutPoints(sink: Sink, collection: string, points: Points, document: Document,
                                              chunks: seq<Chunk>, stop: Progress)
    requires Injective(sink.uuid) && Positional(chunks) && chunks != []
    requires stop == Put(0) ==> IsIndexed(points, document.documentId)
    ensures IsIndexed(After(sink, collection, points, document, chunks, stop), document.documentId)
  {
    if stop != Put(0) {
      var id := IdOf(sink, collection, document, chunks[0]);
      match stop {
        case Put(k) =>
          PutHolds(sink, collection, points, document, chunks, if k < |chunks| then k else |chunks|, 0);
        case Cleared => NewSurvives(sink, collection, points, document, chunks, 0);
        case Finished => NewSurvives(sink, collection, points, document, chunks, 0);
      }
      assert id in After(sink, collection, points, document, chunks, stop);
    }
  }

  // Upserts of any documents, each finished or stopped somewhere.
  datatype Upsert = Upsert(document: Document, chunks: seq<Chunk>, progress: Progress)

  function AfterRun(sink: Sink, collection: string, points: Points, run: seq<Upsert>, n: nat): Points
    requires n <= |run|
  {
    if n == 0 then points
    else
      var last := run[n - 1];
      After(sink, collection, AfterRun(sink, collection, points, run, n - 1), last.document, last.chunks, last.progress)
  }

  ghost predicate AllPositional(run: seq<Upsert>) {
    forall i :: 0 <= i < |run| ==> Positional(run[i].chunks)
  }

  lemma {:induction false} RunKeeps(sink: Sink, collection: string, points: Points, run: seq<Upsert>, n: nat)
    requires Injective(sink.uuid) && AllPositional(run) && n <= |run| && WellKept(sink, collection, points)
    ensures WellKept(sink, collection, AfterRun(sink, collection, points, run, n))
  {
    hide After;
    if n > 0 {
      RunKeeps(sink, collection, points, run, n - 1);
      EveryStopKeeps(sink, collection, AfterRun(sink, collection, points, run, n - 1), run[n - 1].document,
                     run[n - 1].chunks, run[n - 1].progress);
    }
  }

  lemma {:induction false} OtherKeepsExactly(sink: Sink, collection: string, a: Points, b: Points,
                                             document: Document, chunks: seq<Chunk>, other: int)
    requires HoldsExactly(sink, collection, a, document, chunks) && other != document.documentId
    requires OthersOf(a, other) == OthersOf(b, other)
    ensures HoldsExactly(sink, collection, b, document, chunks)
  {
    hide IdOf;
    forall i | 0 <= i < |chunks|
      ensures HasPoint(sink, collection, b, document, chunks[i])
    {
      assert HasPoint(sink, collection, a, document, chunks[i]);
      assert IdOf(sink, collection, document, chunks[i]) in OthersOf(b, other);
    }
    forall id | id in b && b[id].payload.documentId == document.documentId
      ensures id in NewIds(sink, collection, document, chunks, |chunks|)
    {
      assert id in OthersOf(b, other) && id in OthersOf(a, other);
    }
  }

  lemma {:induction false} OtherUpsertKeeps(sink: Sink, collection: string, points: Points, document: Document,
                                            chunks: seq<Chunk>, other: Upsert)
    requires Injective(sink.uuid) && Positional(other.chunks) && WellKept(sink, collection, points)
    requires HoldsExactly(sink, collection, points, document, chunks)
             && other.document.documentId != document.documentId
    ensures var after := After(sink, collection, points, other.document, other.chunks, other.progress);
            HoldsExactly(sink, collection, after, document, chunks)
  {
    hide After, HoldsExactly, WellKept;
    EveryStopKeeps(sink, collection, points, other.document, other.chunks, other.progress);
    OtherKeepsExactly(sink, collection, points,
                      After(sink, collection, points, other.document, other.chunks, other.progress),
                      document, chunks, other.document.documentId);
  }

  lemma {:induction false} JustFinished(sink: Sink, collection: string, points: Points, run: seq<Upsert>, i: nat)
    requires Injective(sink.uuid) && AllPositional(run) && WellKept(sink, collection, points)
    requires i < |run| && run[i].progress == Finished
    ensures HoldsExactly(sink, collection, AfterRun(sink, collection, points, run, i + 1), run[i].document,
                         run[i].chunks)
  {
    hide After;
    RunKeeps(sink, collection, points, run, i);
    FinishedReconciles(sink, collection, AfterRun(sink, collection, points, run, i), run[i].document, run[i].chunks);
  }

  lemma {:induction false} OtherStepKeeps(sink: Sink, collection: string, points: Points, run: seq<Upsert>,
                                          document: Document, chunks: seq<Chunk>, n: nat)
    requires Injective(sink.uuid) && AllPositional(run) && WellKept(sink, collection, points)
    requires n < |run| && run[n].document.documentId != document.documentId
    requires HoldsExactly(sink, collection, AfterRun(sink, collection, points, run, n), document, chunks)
    ensures HoldsExactly(sink, collection, AfterRun(sink, collection, points, run, n + 1), document, chunks)
  {
    RunKeeps(sink, collection, points, run, n);
    assert Positional(run[n].chunks);
    hide After, Positional;
    OtherUpsertKeeps(sink, collection, AfterRun(sink, collection, points, run, n), document, chunks, run[n]);
  }

  // In any run from any well-kept collection, the last finished upsert of a
  // document decides its points, if nothing touches the document after it.
  lemma {:induction false} LastFinishedWins(sink: Sink, collection: string, points: Points, run: seq<Upsert>, i: nat,
                                            n: nat)
    requires Injective(sink.uuid) && AllPositional(run) && WellKept(sink, collection, points)
    requires i < n <= |run| && run[i].progress == Finished
    requires forall j :: i < j < n ==> run[j].document.documentId != run[i].document.documentId
    ensures HoldsExactly(sink, collection, AfterRun(sink, collection, points, run, n), run[i].document, run[i].chunks)
  {
    hide *;
    if n == i + 1 {
      JustFinished(sink, collection, points, run, i);
    } else {
      LastFinishedWins(sink, collection, points, run, i, n - 1);
      OtherStepKeeps(sink, collection, points, run, run[i].document, run[i].chunks, n - 1);
    }
  }
}
