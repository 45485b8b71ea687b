// The vectorizer's consumer (main.py): it moves messages from the input list to the
// processing list, indexes their documents with retries, and takes them off when
// they are done or dead.  Every request may fail, applied or not, and the process
// may die at any point.
module Consumer {
  import opened Wrappers
  import opened Chunks
  import opened Ranges
  import opened VectorIndex
  import opened VectorIndexFacts
  import opened Messages
  import opened MessageLog
  import opened MessageFacts

  class Consumer {
    const work: Work
    const qdrant: QdrantSink
    var lists: Lists
    var stopping: bool
    ghost var history: History

    function Config(): Setup {
      Setup(work, qdrant.sink, qdrant.dimension, qdrant.batchSize)
    }

    ghost function Now(): World
      reads this`lists, this`history, qdrant`collections
    {
      World(lists, history, qdrant.collections)
    }

    // The books are balanced, every acknowledged message was settled when it was
    // acknowledged, and every point has its own id.
    ghost predicate Valid()
      reads this`lists, this`history, qdrant
    {
      && Indexing() && Balanced(lists, history) && AllSettled(work, qdrant.sink, history.acks)
    }

    ghost predicate Indexing()
      reads qdrant
    {
      qdrant.Valid() && Trusted(work, qdrant.sink) && IndexKept(qdrant.sink, qdrant.collections)
    }

    constructor (work: Work, qdrant: QdrantSink, input: seq<string>)
      requires qdrant.Valid() && Trusted(work, qdrant.sink) && IndexKept(qdrant.sink, qdrant.collections)
      ensures this.work == work && this.qdrant == qdrant && lists == Lists(input, [], []) && !stopping && Valid()
      ensures history == History(multiset(input), multiset{}, [])
    {
      this.work, this.qdrant, lists, stopping := work, qdrant, Lists(input, [], []), false;
      history := History(multiset(input), multiset{}, []);
    }

    // One attempt.  It changes no more of the index than one upsert of the message's
    // document does, and settles the message if it returns normally.
    method ProcessMessage(raw: string, fate: Fate) returns (end: End, ghost e: Event)
      requires Indexing()
      modifies qdrant
      ensures Indexing() && AttemptDid(Config(), old(qdrant.collections), fate, e) && e.raw == raw
      ensures e.Tried? && e.end == end && (end == Fine || end == Raises || end == Dies)
      ensures qdrant.collections == if e.change.Some? then Changed(Config(), old(qdrant.collections), e.change.value)
                                    else old(qdrant.collections)
      ensures end == Fine ==> Settled(work, qdrant.sink, raw, qdrant.collections)
    {
      hide VectorIndex.After, HoldsExactly, IndexKept, Trusted, Checked;
      end := if fate.Stops? && fate.dies then Dies else Raises;
      e := Tried(raw, None, end);
      if fate.Stops? && fate.at.Before? {
        return;
      }
      if work.lookup(raw).Malformed? {
        return Raises, Tried(raw, None, Raises);
      }
      if work.lookup(raw).Missing? {
        return Fine, Tried(raw, None, Fine);
      }
      var document := work.lookup(raw).document;
      var chunks, name := work.prepare(document), work.collectionFor(document);
      if chunks == [] {
        return Fine, Tried(raw, None, Fine);
      }
      var needed := Count(|chunks|, qdrant.batchSize) + 2;
      var budget := if fate.Stops? && fate.at.During? then fate.at.requests else needed;
      ghost var before := qdrant.collections;
      var accepted, progress := qdrant.UpsertDocument(name, document, chunks, budget);
      UpsertSettles(work, qdrant.sink, raw, document, qdrant.dimension, before, progress);
      if accepted && fate.Clean? {
        end := Fine;
      }
      e := Tried(raw, if accepted then Some(Asked(work, raw, progress)) else None, end);
    }

    // The attempts at a message.
    method ProcessMessageWithRetry(raw: string, fates: nat -> Fate) returns (end: End, ghost tries: seq<Event>)
      requires Indexing()
      modifies qdrant
      ensures Indexing() && TriesDid(Config(), old(Now()), raw, fates, tries)
      ensures EndWith(tries, end) && (end == Fine || end == Raises || end == Dies)
      ensures end == Raises ==> |tries| == work.maxRetries || (work.maxRetries < 2 && |tries| == 1)
      ensures Now() == AfterEvents(Config(), old(Now()), tries)
      ensures end == Fine ==> Settled(work, qdrant.sink, raw, qdrant.collections)
    {
      hide Settled, Trusted, IndexKept, AttemptAt, Changed;
      ghost var w0 := Now();
      ghost var e;
      var attempts := 1;
      end, e := ProcessMessage(raw, fates(attempts));
      NothingYet(Config(), w0);
      NextAttempt(Config(), w0, raw, fates, [], e);
      tries := [] + [e];
      while end == Raises && attempts < work.maxRetries
        invariant Indexing() && attempts == |tries|
        invariant end == Fine || end == Raises || end == Dies
        invariant Trying(Config(), w0, raw, fates, tries) && EndWith(tries, end)
        invariant Now() == AfterEvents(Config(), w0, tries)
        invariant end == Fine ==> Settled(work, qdrant.sink, raw, qdrant.collections)
        decreases work.maxRetries - attempts
      {
        attempts := attempts + 1;
        end, e := ProcessMessage(raw, fates(attempts));
        NextAttempt(Config(), w0, raw, fates, tries, e);
        tries := tries + [e];
      }
    }

    // The end of process_processing_item: the removal from the processing list,
    // and the dead letter if the attempts raised.
    method Resolve(raw: string, raised: bool, remove: Request, push: Request) returns (end: End)
      modifies this`lists
      ensures lists == ListsAfter(old(lists), raw, raised, remove, push)
      ensures lists.input == old(lists).input
      ensures Applied(remove) ==> lists.processing == RemoveFirst(old(lists).processing, raw)
      ensures !Applied(remove) ==> lists.processing == old(lists).processing
      ensures if raised && remove.Works? && Applied(push) then lists.failed == [raw] + old(lists).failed
              else lists.failed == old(lists).failed
      ensures end == if remove.Works? && raised then EndOf(push) else EndOf(remove)
    {
      hide RemoveFirst;
      end := EndOf(remove);
      if Applied(remove) {
        lists := lists.(processing := RemoveFirst(lists.processing, raw));
      }
      if raised && end == Fine {
        if Applied(push) {
          lists := lists.(failed := [raw] + lists.failed);
        }
        end := EndOf(push);
      }
    }

    // Resolving a message and writing it down.
    method Conclude(raw: string, raised: bool, fate: ItemFate) returns (end: End, ghost e: Event)
      requires Balanced(lists, history) && raw in lists.processing && AllSettled(work, qdrant.sink, history.acks)
      requires !raised ==> Settled(work, qdrant.sink, raw, qdrant.collections)
      modifies this`lists, this`history
      ensures Balanced(lists, history) && AllSettled(work, qdrant.sink, history.acks)
      ensures e == Concluded(Handling(raw, raised, fate.remove, fate.push))
      ensures Now() == AfterEvent(Config(), old(Now()), e) && end == EndOfItem([e])
    {
      hide Balanced, ListsAfter, Settled;
      e := Concluded(Handling(raw, raised, fate.remove, fate.push));
      ghost var ack := Ack(raw, qdrant.collections);
      HandlingBalances(lists, history, ack, raised, fate.remove, fate.push);
      history := HistoryAfter(history, ack, raised, fate.remove, fate.push);
      end := Resolve(raw, raised, fate.remove, fate.push);
    }

    // process_processing_item, for the one consumer of the processing list.
    method ProcessProcessingItem(raw: string, fate: ItemFate) returns (end: End, ghost es: seq<Event>)
      requires Valid() && raw in lists.processing
      modifies this`lists, this`history, qdrant
      ensures Valid() && ItemDid(Config(), old(Now()), raw, fate, es) && end == EndOfItem(es)
      ensures Now() == AfterEvents(Config(), old(Now()), es)
    {
      hide Settled, AllSettled, Trusted, IndexKept, Balanced, TriesDid, AfterEvents, AfterEvent;
      ghost var w0 := Now();
      end, es := ProcessMessageWithRetry(raw, fate.attempts);
      if end != Dies {
        ghost var e;
        ghost var tries := es;
        end, e := Conclude(raw, end == Raises, fate);
        AfterSnoc(Config(), w0, tries, e);
        es := tries + [e];
        assert es[..|es| - 1] == tries;
      }
    }

    // What docs/queues.md rules out happens: a malformed message whose process dies
    // between the removal and the push is in no list, and not acknowledged.
    method DiesBeforeDeadLetter(raw: string) returns (end: End)
      requires Valid() && raw in lists.processing && work.lookup(raw).Malformed?
      modifies this`lists, this`history, qdrant
      ensures Valid() && end == Dies
      ensures multiset(lists.processing) == multiset(old(lists).processing) - multiset{raw}
      ensures lists.input == old(lists).input && lists.failed == old(lists).failed
      ensures history.acks == old(history).acks && history.lost == old(history).lost + multiset{raw}
    {
      hide Valid;
      ghost var w0 := Now();
      ghost var es;
      RemovesOne(lists.processing, raw);
      end, es := ProcessProcessingItem(raw, ItemFate(_ => Clean, Works, Kills(false)));
      MalformedRaises(Config(), w0, raw, ItemFate(_ => Clean, Works, Kills(false)), es);
      ItemConcludes(Config(), w0, raw, ItemFate(_ => Clean, Works, Kills(false)), es);
      hide RemoveFirst, ItemDid, AfterEvents;
    }

    // recover_processing_queue.  A pass that is not stopped, and that Redis does
    // not refuse, resolves every pending message and empties the list, even when
    // messages are equal.
    method RecoverProcessingQueue(listing: Request, stops: nat -> bool, fates: nat -> ItemFate)
      returns (end: End, complete: bool, ghost logs: seq<seq<Event>>)
      requires Valid()
      modifies this`lists, this`history, this`stopping, qdrant
      ensures Valid()
      ensures PassDid(Config(), old(Now()), listing, old(stopping), stops, fates, logs)
      ensures Now() == AfterEvents(Config(), old(Now()), Flat(logs))
      ensures end == PassEnd(listing, logs) && stopping == (old(stopping) || PassStops(old(Now()), listing, logs))
      ensures complete ==> Recovered(old(lists), old(history), lists, history)
      ensures !complete ==> stopping || end != Fine || exists k :: RedisRefuses(fates(k))
    {
      hide Valid, RedisRefuses, Recovering, Recovered, ItemDid, AfterEvents, EndOfItem, Flat;
      ghost var w0 := Now();
      end, complete, logs := EndOf(listing), false, [];
      RecoveryStarts(lists, history);
      NothingYet(Config(), w0);
      if end != Fine {
        return;
      }
      var pending := lists.processing;
      for k := 0 to |pending|
        invariant Valid() && end == Fine && stopping == old(stopping) && |logs| == k && EndedWell(logs)
        invariant Passing(Config(), w0, old(stopping), stops, fates, logs)
        invariant Now() == AfterEvents(Config(), w0, Flat(logs))
        invariant Recovering(w0.lists, w0.history, lists, history, k)
      {
        stopping := stopping || stops(k);
        if stopping {
          return;
        }
        PendingIsListed(w0.lists, w0.history, lists, history, k);
        ghost var w1, es := Now(), [];
        end, es := ProcessProcessingItem(pending[k], fates(k));
        NextItem(Config(), w0, old(stopping), stops, fates, logs, es);
        ItemEndsSomehow(Config(), w1, pending[k], fates(k), es);
        logs := logs + [es];
        if end == RedisFails {
          end := Fine;
          return;
        }
        if end != Fine {
          return;
        }
        ItemRecovers(Config(), w0, w1, pending[k], fates(k), es, k);
      }
      RecoveryEnds(w0.lists, w0.history, lists, history);
      complete := true;
    }

    // A new process, with the lists and the index of the one before it.
    method Restart()
      requires Valid()
      modifies this`stopping, qdrant`ready
      ensures Valid() && !stopping
    {
      qdrant.Restart();
      stopping := false;
    }

    // A producer appends messages to the input list.
    method Arrive(messages: seq<string>)
      requires Valid()
      modifies this`lists, this`history
      ensures Valid() && Now() == AfterEvent(Config(), old(Now()), Arrived(messages))
    {
      hide Settled, Trusted, IndexKept;
      lists := lists.(input := lists.input + messages);
      history := history.(arrived := history.arrived + multiset(messages));
    }

    // BRPOPLPUSH: the right end of the input becomes the left end of the processing
    // list, whether or not the reply arrives.
    method Take(poll: Request) returns (raw: Option<string>)
      requires Valid()
      modifies this`lists
      ensures Valid()
      ensures if old(lists).input == [] || !Applied(poll) then lists == old(lists) && raw == None
              else var last := |old(lists).input| - 1;
                   && lists == Lists(old(lists).input[..last], [old(lists).input[last]] + old(lists).processing,
                                     old(lists).failed)
                   && raw == if poll.Works? then Some(old(lists).input[last]) else None
    {
      raw := None;
      if lists.input != [] && Applied(poll) {
        hide Settled, Trusted, IndexKept, Settlements;
        var next := lists.input[|lists.input| - 1];
        assert lists.input == lists.input[..|lists.input| - 1] + [next];
        lists := Lists(lists.input[..|lists.input| - 1], [next] + lists.processing, lists.failed);
        raw := if poll.Works? then Some(next) else None;
      }
    }

    // One turn of the polling loop.
    method RunTurn(turn: Turn) returns (end: End, ghost es: seq<Event>)
      requires Valid()
      modifies this`lists, this`history, this`stopping, qdrant
      ensures Valid() && stopping == (old(stopping) || turn.stop)
      ensures TurnDid(Config(), old(Now()), old(stopping), turn, es)
      ensures end == if TurnDies(old(stopping), turn, es) then Dies else Fine
      ensures Now() == AfterEvents(Config(), old(Now()), es)
    {
      hide Valid, ItemDid, AfterEvents, ListsAfter, HistoryAfter, Changed, EndOfItem;
      ghost var w0 := Now();
      end, es := Fine, [Arrived(turn.arrivals)];
      Arrive(turn.arrivals);
      AfterTwo(Config(), w0, turn.arrivals);
      stopping := stopping || turn.stop;
      if stopping {
        return;
      }
      ghost var waiting := lists.input;
      var raw := Take(turn.poll);
      if waiting != [] && Applied(turn.poll) {
        es := [Arrived(turn.arrivals), Taken];
      }
      if turn.poll.Kills? {
        end := Dies;
      } else if raw.Some? {
        ghost var head, w1 := es, Now();
        end, es := ProcessProcessingItem(raw.value, turn.item);
        ItemEndsSomehow(Config(), w1, raw.value, turn.item, es);
        AfterConcat(Config(), w0, head, es);
        assert (head + es)[..2] == head && (head + es)[2..] == es;
        es := head + es;
        if end == RedisFails {
          end := Fine;
        }
      }
    }

    // run: turns of the polling loop.
    method Run(turns: seq<Turn>) returns (end: End, ghost logs: seq<seq<Event>>)
      requires Valid()
      modifies this`lists, this`history, this`stopping, qdrant
      ensures Valid() && (end == Fine || end == Dies)
      ensures RunDid(Config(), old(Now()), old(stopping), turns, logs)
      ensures end == Dies <==> logs != [] && TurnDies(old(stopping), turns[|logs| - 1], logs[|logs| - 1])
      ensures Now() == AfterEvents(Config(), old(Now()), Flat(logs))
      ensures history.arrived == old(history).arrived + ArrivedIn(turns, |logs|)
      ensures Accounted(old(lists), old(history), lists, history, Handlings(Flat(logs)))
      ensures (forall t :: 0 <= t < |turns| ==> !CanLose(turns[t].item)) ==> history.lost == old(history).lost
    {
      hide Valid, TurnDid, AfterEvents, Flat, Accounted, CanLose, Handlings, TurnDies;
      ghost var w0 := Now();
      end, logs := Fine, [];
      NothingYet(Config(), w0);
      var t := 0;
      while t < |turns| && end == Fine && (t == 0 || !stopping)
        invariant t == |logs| <= |turns| && Valid() && (end == Fine || end == Dies)
        invariant Running(Config(), w0, old(stopping), turns, logs)
        invariant Now() == AfterEvents(Config(), w0, Flat(logs))
        invariant t == 0 ==> stopping == old(stopping) && end == Fine
        invariant t > 0 ==> RunIsOver(old(stopping), turns, logs) == (stopping || end == Dies)
        invariant t > 0 ==> (end == Dies <==> TurnDies(old(stopping), turns[t - 1], logs[t - 1]))
        decreases |turns| - t
      {
        ghost var es;
        end, es := RunTurn(turns[t]);
        NextTurn(Config(), w0, old(stopping), turns, logs, es);
        t, logs := t + 1, logs + [es];
      }
      RunBooks(Config(), w0, old(stopping), turns, logs);
    }

    // main, over and over: each process recovers what the one before it left, and
    // then polls, wherever it dies.
    method Live(lives: seq<Life>) returns (ghost logs: seq<LifeLog>)
      requires Valid()
      modifies this`lists, this`history, this`stopping, qdrant
      ensures Valid()
      ensures LivesDid(Config(), old(Now()), lives, logs)
      ensures Now() == AfterEvents(Config(), old(Now()), AllEvents(logs))
      ensures history.arrived == old(history).arrived + ArrivedInLives(lives, logs, |lives|)
      ensures Accounted(old(lists), old(history), lists, history, Handlings(AllEvents(logs)))
      ensures forall h :: h in Handlings(AllEvents(logs)) ==> OfLives(Config(), old(qdrant.collections), h, lives)
      ensures (forall l :: 0 <= l < |lives| ==> Careful(lives[l])) ==> history.lost == old(history).lost
    {
      hide Valid, PassDid, RunDid, AfterEvents, AllEvents, Accounted, Careful, Handlings, OfLives;
      ghost var w0 := Now();
      logs := [];
      NothingYet(Config(), w0);
      for l := 0 to |lives|
        invariant Valid() && |logs| == l && Living(Config(), w0, lives, logs)
        invariant Now() == AfterEvents(Config(), w0, AllEvents(logs))
      {
        Restart();
        ghost var w1, log := Now(), LifeLog([], []);
        var end, complete;
        ghost var pass;
        ghost var run := [];
        end, complete, pass := RecoverProcessingQueue(lives[l].listing, lives[l].stops, lives[l].fates);
        NothingYet(Config(), Now());
        if end == Fine {
          end, run := Run(lives[l].turns);
        }
        log := LifeLog(pass, run);
        AfterConcat(Config(), w1, Flat(pass), Flat(run));
        NextLife(Config(), w0, lives, logs, log);
        logs := logs + [log];
      }
      LivesBooks(Config(), w0, lives, logs);
    }
  }
}
