// What the vector store holds after any log of the consumer: the last finished upsert
// of a document in a collection decides its points there.
module MessageIndex {
  import opened Wrappers
  import opened Chunks
  import opened VectorIndex
  import opened VectorIndexFacts
  import opened Messages
  import opened MessageLog

  // Whatever an attempt asks of the store is for the document of its message; and an
  // acknowledgement follows at once on an attempt that left nothing to do.
  ghost predicate SoundAt(work: Work, es: seq<Event>, k: nat)
    requires k < |es|
  {
    && (es[k].Tried? && es[k].change.Some? ==>
          && Needs(work, es[k].raw)
          && es[k].change.value == Asked(work, es[k].raw, es[k].change.value.progress))
    && (es[k].Concluded? && !es[k].handling.raised ==> k > 0 && Settles(work, es[k].handling.raw, es[k - 1]))
  }

  ghost predicate Settles(work: Work, raw: string, e: Event) {
    && Succeeded(e) && e.raw == raw
    && (Needs(work, raw) ==> e.change == Some(Asked(work, raw, Finished)))
  }

  ghost predicate SoundLog(work: Work, es: seq<Event>) {
    forall k :: 0 <= k < |es| ==> SoundAt(work, es, k)
  }

  lemma {:induction false} SoundConcat(work: Work, a: seq<Event>, b: seq<Event>)
    requires SoundLog(work, a) && SoundLog(work, b)
    ensures SoundLog(work, a + b)
  {
    hide Needs, Settles;
    forall k | 0 <= k < |a + b|
      ensures SoundAt(work, a + b, k)
    {
      if k < |a| {
        assert SoundAt(work, a, k);
      } else {
        assert SoundAt(work, b, k - |a|);
        assert k > |a| ==> (a + b)[k - 1] == b[k - 1 - |a|];
      }
    }
  }

  lemma {:induction false} TriesAreSound(setup: Setup, w: World, raw: string, fates: nat -> Fate, es: seq<Event>)
    requires TriesDid(setup, w, raw, fates, es)
    ensures SoundLog(setup.work, es)
    ensures forall k :: 0 <= k < |es| ==> es[k].Tried?
    ensures EndWith(es, Fine) ==> Settles(setup.work, raw, es[|es| - 1])
  {
    hide AfterEvents;
    forall k | 0 <= k < |es|
      ensures SoundAt(setup.work, es, k) && es[k].Tried? && es[k].raw == raw
      ensures es[k].end == Fine ==> Settles(setup.work, raw, es[k])
    {
      assert AttemptAt(setup, w, raw, fates, es, k);
    }
  }

  lemma {:induction false} ItemIsSound(setup: Setup, w: World, raw: string, fate: ItemFate, es: seq<Event>)
    requires ItemDid(setup, w, raw, fate, es)
    ensures SoundLog(setup.work, es)
  {
    var tries := if es[|es| - 1].Tried? then es else es[..|es| - 1];
    TriesAreSound(setup, w, raw, fate.attempts, tries);
    hide TriesDid, Needs, Settles;
    if !es[|es| - 1].Tried? {
      forall k | 0 <= k < |es|
        ensures SoundAt(setup.work, es, k)
      {
        if k < |tries| {
          assert SoundAt(setup.work, tries, k);
        }
      }
    }
  }

  lemma {:induction false} FlatIsSound(work: Work, logs: seq<seq<Event>>)
    requires forall t :: 0 <= t < |logs| ==> SoundLog(work, logs[t])
    ensures SoundLog(work, Flat(logs))
  {
    hide SoundLog;
    if logs == [] {
      NothingIsSound(work);
    } else {
      FlatIsSound(work, logs[..|logs| - 1]);
      SoundConcat(work, Flat(logs[..|logs| - 1]), logs[|logs| - 1]);
    }
  }

  lemma {:induction false} NothingIsSound(work: Work)
    ensures SoundLog(work, [])
  {
  }

  lemma {:induction false} TurnIsSound(setup: Setup, w: World, stopping: bool, turn: Turn, es: seq<Event>)
    requires TurnDid(setup, w, stopping, turn, es)
    ensures SoundLog(setup.work, es)
  {
    hide ItemDid, AfterEvents, Needs, Settles;
    if |es| > 2 {
      var waiting := w.lists.input + turn.arrivals;
      ItemIsSound(setup, AfterEvents(setup, w, es[..2]), waiting[|waiting| - 1], turn.item, es[2..]);
      assert SoundLog(setup.work, es[..2]);
      SoundConcat(setup.work, es[..2], es[2..]);
      assert es == es[..2] + es[2..];
    }
  }

  lemma {:induction false} RunIsSound(setup: Setup, w: World, stopping: bool, turns: seq<Turn>,
                                      logs: seq<seq<Event>>)
    requires Running(setup, w, stopping, turns, logs)
    ensures SoundLog(setup.work, Flat(logs))
  {
    hide TurnDid, SoundLog, AfterEvents, TurnIsLast;
    forall t | 0 <= t < |logs|
      ensures SoundLog(setup.work, logs[t])
    {
      assert TurnAt(setup, w, stopping, turns, logs, t);
      TurnIsSound(setup, WorldAt(setup, w, logs, t), stopping, turns[t], logs[t]);
    }
    FlatIsSound(setup.work, logs);
  }

  lemma {:induction false} PassIsSound(setup: Setup, w: World, stopping: bool, stops: nat -> bool,
                                       fates: nat -> ItemFate, logs: seq<seq<Event>>)
    requires Passing(setup, w, stopping, stops, fates, logs)
    ensures SoundLog(setup.work, Flat(logs))
  {
    hide ItemDid, SoundLog, AfterEvents, EndOfItem;
    forall k | 0 <= k < |logs|
      ensures SoundLog(setup.work, logs[k])
    {
      assert ItemAt(setup, w, w.lists.processing, fates, logs, k);
      ItemIsSound(setup, WorldAt(setup, w, logs, k), w.lists.processing[k], fates(k), logs[k]);
    }
    FlatIsSound(setup.work, logs);
  }

  // The log of any number of processes is sound.
  lemma {:induction false} LivesAreSound(setup: Setup, w: World, lives: seq<Life>, logs: seq<LifeLog>, n: nat)
    requires Living(setup, w, lives, logs) && n <= |logs|
    ensures SoundLog(setup.work, AllEvents(logs[..n]))
  {
    hide Passing, Running, RunIsOver, SoundLog, AfterEvents;
    if n == 0 {
      NothingIsSound(setup.work);
    } else {
      LivesAreSound(setup, w, lives, logs, n - 1);
      assert logs[..n][..n - 1] == logs[..n - 1];
      assert LifeAt(setup, w, lives, logs, n - 1);
      var here, life, log := AfterEvents(setup, w, AllEvents(logs[..n - 1])), lives[n - 1], logs[n - 1];
      PassIsSound(setup, here, false, life.stops, life.fates, log.pass);
      if log.turns == [] {
        NothingIsSound(setup.work);
      } else {
        RunIsSound(setup, AfterEvents(setup, here, Flat(log.pass)), PassStops(here, life.listing, log.pass), life.turns,
                   log.turns);
      }
      SoundConcat(setup.work, Flat(log.pass), Flat(log.turns));
      SoundConcat(setup.work, AllEvents(logs[..n - 1]), EventsOf(log));
    }
  }

  // The store after the first n events.
  ghost function StoreAt(setup: Setup, w: World, es: seq<Event>, n: nat): Collections
    requires n <= |es|
  {
    AfterEvents(setup, w, es[..n]).collections
  }

  lemma {:induction false} StoreStep(setup: Setup, w: World, es: seq<Event>, n: nat)
    requires n < |es|
    ensures StoreAt(setup, w, es, n + 1)
         == if es[n].Tried? && es[n].change.Some? then Changed(setup, StoreAt(setup, w, es, n), es[n].change.value)
            else StoreAt(setup, w, es, n)
  {
    AfterSnoc(setup, w, es[..n], es[n]);
    assert es[..n + 1] == es[..n] + [es[n]];
    hide Changed;
  }

  // What is asked of the store for one message keeps every point under its own id.
  lemma {:induction false} ChangeKeepsIndex(setup: Setup, collections: Collections, raw: string, change: Change)
    requires Trusted(setup.work, setup.sink) && IndexKept(setup.sink, collections)
    requires Needs(setup.work, raw) && change == Asked(setup.work, raw, change.progress)
    ensures IndexKept(setup.sink, Changed(setup, collections, change))
  {
    hide VectorIndex.After, IndexKept, Trusted, Settled;
    UpsertSettles(setup.work, setup.sink, raw, change.document, setup.dimension, collections, change.progress);
  }

  lemma {:induction false} IndexIsKept(setup: Setup, w: World, es: seq<Event>, n: nat)
    requires Trusted(setup.work, setup.sink) && IndexKept(setup.sink, w.collections) && SoundLog(setup.work, es)
    requires n <= |es|
    ensures IndexKept(setup.sink, StoreAt(setup, w, es, n))
  {
    hide Trusted, IndexKept, Changed, Needs, Settles, AfterEvents;
    if n == 0 {
      NoEvents(setup, w, es);
    } else {
      IndexIsKept(setup, w, es, n - 1);
      StoreStep(setup, w, es, n - 1);
      assert SoundAt(setup.work, es, n - 1);
      if es[n - 1].Tried? && es[n - 1].change.Some? {
        ChangeKeepsIndex(setup, StoreAt(setup, w, es, n - 1), es[n - 1].raw, es[n - 1].change.value);
      }
    }
  }

  lemma {:induction false} NoEvents(setup: Setup, w: World, es: seq<Event>)
    ensures StoreAt(setup, w, es, 0) == w.collections
  {
  }

  // An upsert touches no collection but its own, which keeps its dimension, or is new
  // and has the embedder's.
  lemma {:induction false} ChangeTouchesOne(setup: Setup, collections: Collections, change: Change)
    ensures var after := Changed(setup, collections, change);
            && after.Keys == collections.Keys + {change.name}
            && (forall other :: other in collections && other != change.name ==> after[other] == collections[other])
            && after[change.name].dimension
               == if change.name in collections then collections[change.name].dimension else Some(setup.dimension)
  {
    hide VectorIndex.After;
  }

  ghost predicate StoreIsFaithful(sink: Sink, collections: Collections) {
    forall name :: name in collections ==> AllFaithful(sink, collections[name].points)
  }

  // Over any log, faithful points stay faithful: every vector in the store is the
  // embedding of the text beside it.
  lemma {:induction false} StoreStaysFaithful(setup: Setup, w: World, es: seq<Event>, n: nat)
    requires StoreIsFaithful(setup.sink, w.collections) && n <= |es|
    ensures StoreIsFaithful(setup.sink, StoreAt(setup, w, es, n))
  {
    hide StoreIsFaithful, Changed, AfterEvents;
    if n == 0 {
      NoEvents(setup, w, es);
    } else {
      StoreStaysFaithful(setup, w, es, n - 1);
      StoreStep(setup, w, es, n - 1);
      if es[n - 1].Tried? && es[n - 1].change.Some? {
        ChangeIsFaithful(setup, StoreAt(setup, w, es, n - 1), es[n - 1].change.value);
      }
    }
  }

  lemma {:induction false} ChangeIsFaithful(setup: Setup, collections: Collections, change: Change)
    requires StoreIsFaithful(setup.sink, collections)
    ensures StoreIsFaithful(setup.sink, Changed(setup, collections, change))
  {
    hide VectorIndex.After, AllFaithful;
    var present := Opened(collections, change.name, setup.dimension);
    assert AllFaithful(setup.sink, present[change.name].points) by {
      NothingIsFaithful(setup.sink);
    }
    EveryStopIsFaithful(setup.sink, change.name, present[change.name].points, change.document, change.chunks,
                        change.progress);
  }

  lemma {:induction false} NothingIsFaithful(sink: Sink)
    ensures AllFaithful(sink, map[])
  {
  }

  // The event upserts this document into this collection.
  predicate Touches(e: Event, name: string, documentId: int) {
    e.Tried? && e.change.Some? && e.change.value.name == name && e.change.value.document.documentId == documentId
  }

  ghost predicate Untouched(es: seq<Event>, from: nat, name: string, documentId: int) {
    forall j :: from <= j < |es| ==> !Touches(es[j], name, documentId)
  }

  ghost predicate Holding(sink: Sink, collections: Collections, name: string, document: Document, chunks: seq<Chunk>) {
    name in collections && HoldsExactly(sink, name, collections[name].points, document, chunks)
  }

  // A finished upsert of a message's document.
  lemma {:induction false} FinishedHolds(setup: Setup, collections: Collections, raw: string)
    requires Trusted(setup.work, setup.sink) && IndexKept(setup.sink, collections) && Needs(setup.work, raw)
    ensures var change := Asked(setup.work, raw, Finished);
            Holding(setup.sink, Changed(setup, collections, change), change.name, change.document, change.chunks)
  {
    hide VectorIndex.After, HoldsExactly;
    var change := Asked(setup.work, raw, Finished);
    var present := Opened(collections, change.name, setup.dimension);
    assert WellKept(setup.sink, change.name, present[change.name].points);
    FinishedReconciles(setup.sink, change.name, present[change.name].points, change.document, change.chunks);
  }

  // An upsert of another document, or into another collection.
  lemma {:induction false} OtherChangeKeeps(setup: Setup, collections: Collections, raw: string, change: Change,
                                            name: string, document: Document, chunks: seq<Chunk>)
    requires Trusted(setup.work, setup.sink) && IndexKept(setup.sink, collections)
    requires Needs(setup.work, raw) && change == Asked(setup.work, raw, change.progress)
    requires change.name != name || change.document.documentId != document.documentId
    requires Holding(setup.sink, collections, name, document, chunks)
    ensures Holding(setup.sink, Changed(setup, collections, change), name, document, chunks)
  {
    hide VectorIndex.After, HoldsExactly;
    if change.name == name {
      assert WellKept(setup.sink, name, collections[name].points);
      OtherUpsertKeeps(setup.sink, name, collections[name].points, document, chunks,
                       Upsert(change.document, change.chunks, change.progress));
    }
  }

  // Over any log, from any index: what a finished upsert put into its collection stays
  // exactly that, until the document is upserted there again.
  lemma {:induction false} FinishedStays(setup: Setup, w: World, es: seq<Event>, k: nat, n: nat)
    requires Trusted(setup.work, setup.sink) && IndexKept(setup.sink, w.collections) && SoundLog(setup.work, es)
    requires k < n <= |es| && es[k].Tried? && Needs(setup.work, es[k].raw)
    requires es[k].change == Some(Asked(setup.work, es[k].raw, Finished))
    requires Untouched(es[..n], k + 1, es[k].change.value.name, es[k].change.value.document.documentId)
    ensures var c := es[k].change.value;
            Holding(setup.sink, StoreAt(setup, w, es, n), c.name, c.document, c.chunks)
    decreases n
  {
    hide Trusted, IndexKept, Changed, Settles, AfterEvents, Holding;
    var c := es[k].change.value;
    IndexIsKept(setup, w, es, n - 1);
    StoreStep(setup, w, es, n - 1);
    if n == k + 1 {
      FinishedHolds(setup, StoreAt(setup, w, es, k), es[k].raw);
    } else {
      UntouchedBefore(es, n, k + 1, c.name, c.document.documentId);
      FinishedStays(setup, w, es, k, n - 1);
      assert SoundAt(setup.work, es, n - 1);
      if es[n - 1].Tried? && es[n - 1].change.Some? {
        OtherChangeKeeps(setup, StoreAt(setup, w, es, n - 1), es[n - 1].raw, es[n - 1].change.value, c.name,
                         c.document, c.chunks);
      }
    }
  }

  lemma {:induction false} UntouchedBefore(es: seq<Event>, n: nat, from: nat, name: string, documentId: int)
    requires from < n <= |es| && Untouched(es[..n], from, name, documentId)
    ensures Untouched(es[..n - 1], from, name, documentId) && !Touches(es[n - 1], name, documentId)
  {
    assert es[..n][n - 1] == es[n - 1];
    assert forall j :: from <= j < n - 1 ==> es[..n - 1][j] == es[..n][j];
  }

  // What was indexed when a message was acknowledged is still indexed at the end,
  // unless its document was upserted there again.
  lemma {:induction false} AcknowledgedStays(setup: Setup, w: World, es: seq<Event>, k: nat)
    requires Trusted(setup.work, setup.sink) && IndexKept(setup.sink, w.collections) && SoundLog(setup.work, es)
    requires k < |es| && es[k].Concluded? && !es[k].handling.raised && Needs(setup.work, es[k].handling.raw)
    requires var c := Asked(setup.work, es[k].handling.raw, Finished);
             Untouched(es, k, c.name, c.document.documentId)
    ensures var c := Asked(setup.work, es[k].handling.raw, Finished);
            Holding(setup.sink, AfterEvents(setup, w, es).collections, c.name, c.document, c.chunks)
  {
    assert SoundAt(setup.work, es, k);
    assert es[..|es|] == es;
    hide Trusted, IndexKept, SoundLog, AfterEvents, Holding;
    FinishedStays(setup, w, es, k - 1, |es|);
  }

  // An acknowledgement in the books was given at some event of the log, and recorded
  // the store of that moment.
  lemma {:induction false} AckIsAt(setup: Setup, w: World, es: seq<Event>, i: nat) returns (k: nat)
    requires |w.history.acks| <= i < |AfterEvents(setup, w, es).history.acks|
    ensures k < |es| && es[k].Concluded? && !es[k].handling.raised && Applied(es[k].handling.remove)
    ensures AfterEvents(setup, w, es).history.acks[i] == Ack(es[k].handling.raw, StoreAt(setup, w, es, k))
  {
    hide Changed, ListsAfter;
    var init, last := es[..|es| - 1], es[|es| - 1];
    var before := AfterEvents(setup, w, init);
    if i < |before.history.acks| {
      k := AckIsAt(setup, w, init, i);
      assert init[..k] == es[..k];
    } else {
      k := |es| - 1;
    }
  }
}
