// The messages of the vectorizer's reliable queue (main.py): the lists they are in,
// what becomes of one that is handled, and the books that are kept of them.  Lists
// have their left end first.
module Messages {
  import opened Wrappers
  import opened Chunks
  import opened Ranges
  import opened VectorIndex
  import opened VectorIndexFacts
  import opened Tally

  // parse_message and get_document_version for a raw message.
  datatype Lookup = Malformed | Missing | Found(document: Document)

  datatype Work = Work(
    lookup: string -> Lookup, prepare: Document -> seq<Chunk>, collectionFor: Document -> string, maxRetries: int)

  // How a piece of code ends: normally, by an exception, by a RedisError, or with
  // the process.
  datatype End = Fine | Raises | RedisFails | Dies

  // What the environment does to one attempt at a message: it raises or dies
  // before the index is touched, after some requests to it, or after the upsert.
  datatype Fate = Clean | Stops(at: Stage, dies: bool)
  datatype Stage = Before | During(requests: nat) | Last

  // What it does to one Redis request.
  datatype Request = Works | Fails(applied: bool) | Kills(applied: bool)

  predicate Applied(request: Request) {
    request.Works? || request.applied
  }

  function EndOf(request: Request): End {
    match request case Works => Fine case Fails(_) => RedisFails case Kills(_) => Dies
  }

  // LREM key 1 value.
  function RemoveFirst(list: seq<string>, raw: string): seq<string> {
    if list == [] then []
    else if list[0] == raw then list[1..]
    else [list[0]] + RemoveFirst(list[1..], raw)
  }

  lemma {:induction false} RemovesOne(list: seq<string>, raw: string)
    ensures multiset(RemoveFirst(list, raw)) == multiset(list) - multiset{raw}
  {
    if list == [] {
    } else {
      assert list == [list[0]] + list[1..];
      if list[0] != raw {
        RemovesOne(list[1..], raw);
      }
    }
  }

  // It is the leftmost copy, and the others keep their places.
  lemma {:induction false} RemovesLeftmost(list: seq<string>, raw: string) returns (i: nat)
    ensures raw in list ==>
      i < |list| && list[i] == raw && raw !in list[..i] && RemoveFirst(list, raw) == list[..i] + list[i + 1..]
    ensures raw !in list ==> RemoveFirst(list, raw) == list
  {
    i := 0;
    if list != [] && list[0] != raw {
      var j := RemovesLeftmost(list[1..], raw);
      i := j + 1;
      if raw in list {
        assert list[1..][j] == list[i] && list[..i] == [list[0]] + list[1..][..j];
        assert list[i + 1..] == list[1..][j + 1..];
      }
    }
  }

  // What an acknowledgement stands for: nothing to index, or all of it indexed.
  ghost predicate Settled(work: Work, sink: Sink, raw: string, collections: Collections) {
    match work.lookup(raw)
    case Malformed => false
    case Missing => true
    case Found(document) =>
      var chunks, name := work.prepare(document), work.collectionFor(document);
      chunks == [] || (name in collections && HoldsExactly(sink, name, collections[name].points, document, chunks))
  }

  // An acknowledged message, and the store at that moment.
  datatype Ack = Ack(raw: string, collections: Collections)

  function Raws(acks: seq<Ack>): (raws: seq<string>)
    ensures |raws| == |acks| && forall i :: 0 <= i < |acks| ==> raws[i] == acks[i].raw
  {
    seq(|acks|, i requires 0 <= i < |acks| => acks[i].raw)
  }

  ghost predicate AllSettled(work: Work, sink: Sink, acks: seq<Ack>) {
    forall i :: 0 <= i < |acks| ==> Settled(work, sink, acks[i].raw, acks[i].collections)
  }

  ghost predicate IndexKept(sink: Sink, collections: Collections) {
    forall name :: name in collections ==> WellKept(sink, name, collections[name].points)
  }

  // The assumptions on hashing and on prepare_chunks.
  ghost predicate Trusted(work: Work, sink: Sink) {
    Injective(sink.uuid) && forall document :: Positional(work.prepare(document))
  }

  // Upserting keeps the index, and a finished upsert settles the message.
  lemma {:induction false} UpsertSettles(work: Work, sink: Sink, raw: string, document: Document, dimension: nat,
                                         before: Collections, progress: Progress)
    requires Trusted(work, sink) && IndexKept(sink, before) && work.lookup(raw) == Found(document)
    ensures var name, chunks := work.collectionFor(document), work.prepare(document);
            var present := Opened(before, name, dimension);
            var after := WithPoints(present, name, After(sink, name, present[name].points, document, chunks, progress));
            IndexKept(sink, after) && (progress == Finished ==> Settled(work, sink, raw, after))
  {
    hide After, HoldsExactly;
    var name, chunks := work.collectionFor(document), work.prepare(document);
    var present := Opened(before, name, dimension);
    assert WellKept(sink, name, present[name].points);
    EveryStopKeeps(sink, name, present[name].points, document, chunks, progress);
    FinishedReconciles(sink, name, present[name].points, document, chunks);
  }

  // The three lists in Redis, and the history of the messages.
  datatype Lists = Lists(input: seq<string>, processing: seq<string>, failed: seq<string>)
  datatype History = History(arrived: multiset<string>, lost: multiset<string>, acks: seq<Ack>)

  // Every message that ever arrived is in one of the lists, acknowledged or lost.
  ghost predicate Balanced(lists: Lists, history: History) {
    history.arrived == multiset(lists.input) + multiset(lists.processing) + Settlements(lists, history) + history.lost
  }

  // What was resolved: the dead letters and the acknowledgements.
  ghost function Settlements(lists: Lists, history: History): multiset<string> {
    multiset(lists.failed) + multiset(Raws(history.acks))
  }

  // What a handled message leaves behind, given whether its attempts raised and
  // how its removal and the push of its dead letter went.
  function ListsAfter(lists: Lists, raw: string, raised: bool, remove: Request, push: Request): Lists {
    Lists(lists.input,
          if Applied(remove) then RemoveFirst(lists.processing, raw) else lists.processing,
          if raised && remove.Works? && Applied(push) then [raw] + lists.failed else lists.failed)
  }

  // The message is taken off the list, and its dead letter does not arrive.
  predicate IsLost(raised: bool, remove: Request, push: Request) {
    raised && Applied(remove) && !(remove.Works? && Applied(push))
  }

  ghost function HistoryAfter(history: History, ack: Ack, raised: bool, remove: Request, push: Request): History {
    History(history.arrived,
            if IsLost(raised, remove, push) then history.lost + multiset{ack.raw} else history.lost,
            if Applied(remove) && !raised then history.acks + [ack] else history.acks)
  }

  lemma {:induction false} AckCounts(acks: seq<Ack>, ack: Ack)
    ensures multiset(Raws(acks + [ack])) == multiset(Raws(acks)) + multiset{ack.raw}
  {
    assert Raws(acks + [ack]) == Raws(acks) + [ack.raw];
  }

  // However the requests go, the books stay balanced.
  lemma {:induction false} HandlingBalances(lists: Lists, history: History, ack: Ack, raised: bool, remove: Request,
                                            push: Request)
    requires Balanced(lists, history) && ack.raw in lists.processing
    ensures Balanced(ListsAfter(lists, ack.raw, raised, remove, push), HistoryAfter(history, ack, raised, remove, push))
  {
    RemovesOne(lists.processing, ack.raw);
    AckCounts(history.acks, ack);
    hide RemoveFirst, Raws;
  }

  // A message handled without a Redis error has moved from the processing list to
  // the dead letters or the acknowledgements.
  lemma {:induction false} HandlingSettles(lists: Lists, history: History, ack: Ack, raised: bool, push: Request)
    requires ack.raw in lists.processing && (raised ==> push.Works?)
    ensures var after := ListsAfter(lists, ack.raw, raised, Works, push);
            var next := HistoryAfter(history, ack, raised, Works, push);
            && Settlements(after, next) == Settlements(lists, history) + multiset{ack.raw}
            && multiset(after.processing) == multiset(lists.processing) - multiset{ack.raw}
            && next.lost == history.lost && after.input == lists.input
  {
    RemovesOne(lists.processing, ack.raw);
    AckCounts(history.acks, ack);
    hide RemoveFirst, Raws;
  }

  // A message that was handled to the end of its attempts: whether they raised, and
  // how its removal and the push of its dead letter went.
  datatype Handling = Handling(raw: string, raised: bool, remove: Request, push: Request)

  datatype Outcome = Pending | Acknowledged | DeadLetter | Lost

  function OutcomeOf(h: Handling): Outcome {
    if !Applied(h.remove) then Pending
    else if !h.raised then Acknowledged
    else if IsLost(h.raised, h.remove, h.push) then Lost
    else DeadLetter
  }

  // The handled messages that had an outcome.
  ghost function Having(hs: seq<Handling>, outcome: Outcome): multiset<string> {
    if hs == [] then multiset{}
    else
      var init, last := hs[..|hs| - 1], hs[|hs| - 1];
      Having(init, outcome) + if OutcomeOf(last) == outcome then multiset{last.raw} else multiset{}
  }

  lemma {:induction false} HavingConcat(a: seq<Handling>, b: seq<Handling>, outcome: Outcome)
    ensures Having(a + b, outcome) == Having(a, outcome) + Having(b, outcome)
  {
    if b == [] {
      assert a + b == a;
    } else {
      assert (a + b)[..|a + b| - 1] == a + b[..|b| - 1];
      HavingConcat(a, b[..|b| - 1], outcome);
    }
  }

  // What happened to the messages handled between two moments: the lost ones grew
  // by exactly those whose dead letter did not follow their removal, and the
  // acknowledged ones and the dead letters by theirs.
  ghost predicate Accounted(lists0: Lists, history0: History, lists: Lists, history: History, hs: seq<Handling>) {
    && history.lost == history0.lost + Having(hs, Lost)
    && multiset(Raws(history.acks)) == multiset(Raws(history0.acks)) + Having(hs, Acknowledged)
    && multiset(lists.failed) == multiset(lists0.failed) + Having(hs, DeadLetter)
  }

  lemma {:induction false} NothingHandled(lists0: Lists, history0: History, lists: Lists, history: History)
    requires lists.failed == lists0.failed && history.lost == history0.lost && history.acks == history0.acks
    ensures Accounted(lists0, history0, lists, history, [])
  {
  }

  lemma {:induction false} OneHandled(lists: Lists, history: History, ack: Ack, h: Handling)
    requires h.raw == ack.raw
    ensures Accounted(lists, history, ListsAfter(lists, h.raw, h.raised, h.remove, h.push),
                      HistoryAfter(history, ack, h.raised, h.remove, h.push), [h])
  {
    AckCounts(history.acks, ack);
    HavingOne(h, Lost);
    HavingOne(h, Acknowledged);
    HavingOne(h, DeadLetter);
    hide RemoveFirst, Raws, Having;
  }

  lemma {:induction false} HavingOne(h: Handling, outcome: Outcome)
    ensures Having([h], outcome) == if OutcomeOf(h) == outcome then multiset{h.raw} else multiset{}
  {
    assert [h][..0] == [];
    hide OutcomeOf;
  }

  lemma {:induction false} AccountsAdd(lists0: Lists, history0: History, lists1: Lists, history1: History,
                                       lists2: Lists, history2: History, a: seq<Handling>, b: seq<Handling>)
    requires Accounted(lists0, history0, lists1, history1, a) && Accounted(lists1, history1, lists2, history2, b)
    ensures Accounted(lists0, history0, lists2, history2, a + b)
  {
    HavingConcat(a, b, Lost);
    HavingConcat(a, b, Acknowledged);
    HavingConcat(a, b, DeadLetter);
    hide Having, Raws;
  }

  // Where a message can be found: in a list, or acknowledged.
  ghost function Kept(lists: Lists, history: History): multiset<string> {
    multiset(lists.input) + multiset(lists.processing) + Settlements(lists, history)
  }

  // Handling a message keeps it, in one place or another, exactly when it is not
  // the case that it was removed after its attempts raised and its dead letter did
  // not arrive.
  lemma {:induction false} KeptUnlessLost(lists: Lists, history: History, ack: Ack, raised: bool, remove: Request,
                                          push: Request)
    requires Balanced(lists, history) && ack.raw in lists.processing
    ensures var after := ListsAfter(lists, ack.raw, raised, remove, push);
            var next := HistoryAfter(history, ack, raised, remove, push);
            Kept(after, next) == Kept(lists, history) <==> !IsLost(raised, remove, push)
  {
    HandlingBalances(lists, history, ack, raised, remove, push);
    var after := ListsAfter(lists, ack.raw, raised, remove, push);
    var next := HistoryAfter(history, ack, raised, remove, push);
    assert Kept(lists, history) + history.lost == Kept(after, next) + next.lost;
    if IsLost(raised, remove, push) {
      assert next.lost[ack.raw] == history.lost[ack.raw] + 1;
      assert (Kept(lists, history) + history.lost)[ack.raw] == (Kept(after, next) + next.lost)[ack.raw];
    } else {
      Cancel(Kept(lists, history), Kept(after, next), history.lost);
    }
  }

  // A malformed message, whose attempts always raise, removed by a process that
  // dies before the push of its dead letter: it is in no list and not acknowledged.
  lemma {:induction false} KilledPushLosesMessage(raw: string, collections: Collections)
    ensures var lists, history := Lists([], [raw], []), History(multiset{raw}, multiset{}, []);
            var after := ListsAfter(lists, raw, true, Works, Kills(false));
            var next := HistoryAfter(history, Ack(raw, collections), true, Works, Kills(false));
            && Balanced(lists, history) && after == Lists([], [], []) && next.acks == [] && next.lost == multiset{raw}
  {
    assert [raw][1..] == [];
    assert Raws([]) == [];
  }

  // Nothing was lost exactly when no handling lost its message.
  lemma {:induction false} NoneLost(lists0: Lists, history0: History, lists: Lists, history: History,
                                    hs: seq<Handling>)
    requires Accounted(lists0, history0, lists, history, hs)
    ensures history.lost == history0.lost <==> forall h :: h in hs ==> OutcomeOf(h) != Lost
  {
    HavingNone(hs, Lost);
    if history.lost == history0.lost {
      Cancel(Having(hs, Lost), multiset{}, history0.lost);
    }
  }

  lemma {:induction false} HavingNone(hs: seq<Handling>, outcome: Outcome)
    ensures Having(hs, outcome) == multiset{} <==> forall h :: h in hs ==> OutcomeOf(h) != outcome
  {
    if hs == [] {
    } else {
      HavingNone(hs[..|hs| - 1], outcome);
      assert hs == hs[..|hs| - 1] + [hs[|hs| - 1]];
      hide OutcomeOf;
      if OutcomeOf(hs[|hs| - 1]) == outcome {
        assert hs[|hs| - 1].raw in Having(hs, outcome);
      }
    }
  }

  // One message's attempts, the removal from the processing list, and the push of
  // a dead letter.
  datatype ItemFate = ItemFate(attempts: nat -> Fate, remove: Request, push: Request)

  // Every attempt that stop_after_attempt allows is stopped: the first, whatever the
  // number, and those up to it.
  ghost predicate AllStop(fates: nat -> Fate, maxRetries: int) {
    forall k: nat :: 1 <= k && (k == 1 || k <= maxRetries) ==> fates(k).Stops?
  }

  predicate CanLose(fate: ItemFate) {
    IsLost(true, fate.remove, fate.push)
  }

  predicate RedisRefuses(fate: ItemFate) {
    fate.remove.Fails? || fate.push.Fails?
  }

  // The books of a recovery pass after k of the pending messages.
  ghost predicate Recovering(lists0: Lists, history0: History, lists: Lists, history: History, k: nat) {
    && k <= |lists0.processing|
    && lists.input == lists0.input && history.lost == history0.lost
    && multiset(lists.processing) == multiset(lists0.processing[k..])
    && Settlements(lists, history) == Settlements(lists0, history0) + multiset(lists0.processing[..k])
  }

  lemma {:induction false} RecoveryStarts(lists: Lists, history: History)
    ensures Recovering(lists, history, lists, history, 0)
  {
    assert lists.processing[0..] == lists.processing;
  }

  lemma {:induction false} PendingIsListed(lists0: Lists, history0: History, lists: Lists, history: History, k: nat)
    requires Recovering(lists0, history0, lists, history, k) && k < |lists0.processing|
    ensures lists0.processing[k] in lists.processing
  {
    hide Settlements;
    assert lists0.processing[k] in lists0.processing[k..];
    assert lists0.processing[k] in multiset(lists.processing);
  }

  lemma {:induction false} RecoveryGoesOn(lists0: Lists, history0: History, lists: Lists, history: History, ack: Ack,
                                          raised: bool, push: Request, k: nat)
    requires Recovering(lists0, history0, lists, history, k) && k < |lists0.processing|
             && ack.raw == lists0.processing[k]
    requires raised ==> push.Works?
    ensures Recovering(lists0, history0, ListsAfter(lists, ack.raw, raised, Works, push),
                       HistoryAfter(history, ack, raised, Works, push), k + 1)
  {
    PendingIsListed(lists0, history0, lists, history, k);
    HandlingSettles(lists, history, ack, raised, push);
    PendingSplits(lists0.processing, k);
    hide ListsAfter, HistoryAfter, Settlements;
  }

  lemma {:induction false} PendingSplits(pending: seq<string>, k: nat)
    requires k < |pending|
    ensures multiset(pending[k..]) - multiset{pending[k]} == multiset(pending[k + 1..])
    ensures multiset(pending[..k + 1]) == multiset(pending[..k]) + multiset{pending[k]}
  {
    assert pending[k..] == [pending[k]] + pending[k + 1..];
    assert pending[..k + 1] == pending[..k] + [pending[k]];
  }

  // Every message that was pending is resolved, and the list is empty.
  ghost predicate Recovered(lists0: Lists, history0: History, lists: Lists, history: History) {
    && lists.processing == [] && lists.input == lists0.input && history.lost == history0.lost
    && Settlements(lists, history) == Settlements(lists0, history0) + multiset(lists0.processing)
  }

  lemma {:induction false} RecoveryEnds(lists0: Lists, history0: History, lists: Lists, history: History)
    requires Recovering(lists0, history0, lists, history, |lists0.processing|)
    ensures Recovered(lists0, history0, lists, history)
  {
    hide Settlements;
    var pending := lists0.processing;
    assert pending[..|pending|] == pending;
    assert |multiset(lists.processing)| == |multiset(pending[|pending|..])| == 0;
  }

  // One turn of the polling loop: what arrived before it, a signal, how the
  // blocking pop goes, and how a delivered message fares.
  datatype Turn = Turn(arrivals: seq<string>, stop: bool, poll: Request, item: ItemFate)

  // One process, from its start to its end.
  datatype Life = Life(listing: Request, stops: nat -> bool, fates: nat -> ItemFate, turns: seq<Turn>)

  // A process in which no removal can be followed by a failing dead letter.
  ghost predicate Careful(life: Life) {
    && (forall k: nat :: !CanLose(life.fates(k)))
    && (forall t :: 0 <= t < |life.turns| ==> !CanLose(life.turns[t].item))
  }
}
