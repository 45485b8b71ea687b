// What the consumer of the queue does, as a log of events: which logs its attempts,
// messages, turns and processes can leave, and what a log makes of the lists, the
// books and the vector store.
module MessageLog {
  import opened Wrappers
  import opened Chunks
  import opened Ranges
  import opened VectorIndex
  import opened Messages

  // What is fixed while the consumer runs.
  datatype Setup = Setup(work: Work, sink: Sink, dimension: nat, batchSize: Positive)

  datatype World = World(lists: Lists, history: History, collections: Collections)

  // What an attempt asked of the vector store, and how far that got.
  datatype Change = Change(name: string, document: Document, chunks: seq<Chunk>, progress: Progress)

  datatype Event =
    | Arrived(messages: seq<string>)
    | Taken                                                  // BRPOPLPUSH
    | Tried(raw: string, change: Option<Change>, end: End)   // one attempt at a message
    | Concluded(handling: Handling)                          // its removal, and its dead letter

  function Changed(setup: Setup, collections: Collections, change: Change): Collections {
    var present := Opened(collections, change.name, setup.dimension);
    WithPoints(present, change.name,
               VectorIndex.After(setup.sink, change.name, present[change.name].points, change.document, change.chunks,
                                 change.progress))
  }

  // The right end of the input becomes the left end of the processing list.
  function Moved(lists: Lists): Lists {
    if lists.input == [] then lists
    else
      var last := |lists.input| - 1;
      Lists(lists.input[..last], [lists.input[last]] + lists.processing, lists.failed)
  }

  ghost function AfterEvent(setup: Setup, w: World, e: Event): World {
    match e
    case Arrived(messages) =>
      w.(lists := w.lists.(input := w.lists.input + messages),
         history := w.history.(arrived := w.history.arrived + multiset(messages)))
    case Taken => w.(lists := Moved(w.lists))
    case Tried(_, change, _) =>
      if change.Some? then w.(collections := Changed(setup, w.collections, change.value)) else w
    case Concluded(h) =>
      w.(lists := ListsAfter(w.lists, h.raw, h.raised, h.remove, h.push),
         history := HistoryAfter(w.history, Ack(h.raw, w.collections), h.raised, h.remove, h.push))
  }

  ghost function AfterEvents(setup: Setup, w: World, es: seq<Event>): World {
    if es == [] then w else AfterEvent(setup, AfterEvents(setup, w, es[..|es| - 1]), es[|es| - 1])
  }

  lemma {:induction false} AfterSnoc(setup: Setup, w: World, es: seq<Event>, e: Event)
    ensures AfterEvents(setup, w, es + [e]) == AfterEvent(setup, AfterEvents(setup, w, es), e)
  {
    hide AfterEvent;
    assert (es + [e])[..|es|] == es;
  }

  lemma {:induction false} AfterConcat(setup: Setup, w: World, a: seq<Event>, b: seq<Event>)
    ensures AfterEvents(setup, w, a + b) == AfterEvents(setup, AfterEvents(setup, w, a), b)
  {
    hide AfterEvent;
    if b == [] {
      assert a + b == a;
    } else {
      var init, last := b[..|b| - 1], b[|b| - 1];
      AfterConcat(setup, w, a, init);
      AfterSnoc(setup, w, a + init, last);
      assert a + b == (a + init) + [last];
    }
  }

  // Several logs, one after the other.
  function Flat(logs: seq<seq<Event>>): seq<Event> {
    if logs == [] then [] else Flat(logs[..|logs| - 1]) + logs[|logs| - 1]
  }

  lemma {:induction false} FlatSnoc(logs: seq<seq<Event>>, es: seq<Event>)
    ensures Flat(logs + [es]) == Flat(logs) + es
  {
    assert (logs + [es])[..|logs|] == logs;
  }

  // The world before log t.
  ghost function WorldAt(setup: Setup, w: World, logs: seq<seq<Event>>, t: nat): World
    requires t <= |logs|
  {
    AfterEvents(setup, w, Flat(logs[..t]))
  }

  // The message stands for a document with chunks to index.
  predicate Needs(work: Work, raw: string) {
    work.lookup(raw).Found? && work.prepare(work.lookup(raw).document) != []
  }

  function CollectionOf(work: Work, raw: string): string
    requires Needs(work, raw)
  {
    work.collectionFor(work.lookup(raw).document)
  }

  // A clean attempt would succeed: the message can be read, and its collection, if
  // it needs one, takes vectors of this dimension.
  predicate CanIndex(setup: Setup, collections: Collections, raw: string) {
    && !setup.work.lookup(raw).Malformed?
    && (Needs(setup.work, raw) ==> Fits(collections, CollectionOf(setup.work, raw), setup.dimension))
  }

  function Asked(work: Work, raw: string, progress: Progress): Change
    requires Needs(work, raw)
  {
    var document := work.lookup(raw).document;
    Change(work.collectionFor(document), document, work.prepare(document), progress)
  }

  function ProgressOf(setup: Setup, raw: string, fate: Fate): Progress
    requires Needs(setup.work, raw)
  {
    if fate.Stops? && fate.at.During? then
      Reached(|setup.work.prepare(setup.work.lookup(raw).document)|, setup.batchSize, fate.at.requests)
    else Finished
  }

  predicate GetsToStore(setup: Setup, collections: Collections, raw: string, fate: Fate) {
    !(fate.Stops? && fate.at.Before?) && Needs(setup.work, raw) && CanIndex(setup, collections, raw)
  }

  // The attempt is stopped: before anything, or on its way through the store.
  predicate IsStopped(work: Work, raw: string, fate: Fate) {
    fate.Stops? && (fate.at.Before? || Needs(work, raw))
  }

  // One attempt: it changes no more than the one collection, as far as it gets; and it
  // returns normally exactly when nothing stops it and the message can be indexed.
  ghost predicate AttemptDid(setup: Setup, collections: Collections, fate: Fate, e: Event) {
    && e.Tried?
    && (e.change.Some? <==> GetsToStore(setup, collections, e.raw, fate))
    && (e.change.Some? ==> e.change.value == Asked(setup.work, e.raw, ProgressOf(setup, e.raw, fate)))
    && e.end == (if IsStopped(setup.work, e.raw, fate) then if fate.dies then Dies else Raises
                 else if CanIndex(setup, collections, e.raw) then Fine
                 else Raises)
  }

  predicate Raised(e: Event) {
    e.Tried? && e.end == Raises
  }

  predicate Succeeded(e: Event) {
    e.Tried? && e.end == Fine
  }

  predicate EndWith(es: seq<Event>, end: End) {
    es != [] && es[|es| - 1].Tried? && es[|es| - 1].end == end
  }

  ghost predicate AttemptAt(setup: Setup, w: World, raw: string, fates: nat -> Fate, es: seq<Event>, k: nat)
    requires k < |es|
  {
    && AttemptDid(setup, AfterEvents(setup, w, es[..k]).collections, fates(k + 1), es[k])
    && es[k].raw == raw
  }

  // The attempts at a message: each but the last raises, and after one that raises
  // another follows while there are any left.
  ghost predicate Trying(setup: Setup, w: World, raw: string, fates: nat -> Fate, es: seq<Event>) {
    && 1 <= |es| && (|es| == 1 || |es| <= setup.work.maxRetries)
    && (forall k :: 0 <= k < |es| ==> AttemptAt(setup, w, raw, fates, es, k))
    && (forall k :: 0 <= k < |es| - 1 ==> Raised(es[k]))
  }

  ghost predicate TriesDid(setup: Setup, w: World, raw: string, fates: nat -> Fate, es: seq<Event>) {
    && Trying(setup, w, raw, fates, es)
    && (Raised(es[|es| - 1]) ==> |es| >= setup.work.maxRetries)
  }

  // process_processing_item: the attempts, and unless the process dies in them, one
  // removal, with a dead letter if they raised.
  ghost predicate ItemDid(setup: Setup, w: World, raw: string, fate: ItemFate, es: seq<Event>) {
    && es != []
    && (if es[|es| - 1].Tried? then TriesDid(setup, w, raw, fate.attempts, es) && EndWith(es, Dies)
        else
          var tries := es[..|es| - 1];
          && TriesDid(setup, w, raw, fate.attempts, tries)
          && (EndWith(tries, Fine) || EndWith(tries, Raises))
          && es[|es| - 1] == Concluded(Handling(raw, Raised(tries[|tries| - 1]), fate.remove, fate.push)))
  }

  function EndOfItem(es: seq<Event>): End {
    if es == [] || !es[|es| - 1].Concluded? then Dies
    else
      var h := es[|es| - 1].handling;
      if h.remove.Works? && h.raised then EndOf(h.push) else EndOf(h.remove)
  }

  ghost predicate ItemAt(setup: Setup, w: World, pending: seq<string>, fates: nat -> ItemFate, logs: seq<seq<Event>>,
                         k: nat)
    requires k < |logs| <= |pending|
  {
    ItemDid(setup, WorldAt(setup, w, logs, k), pending[k], fates(k), logs[k])
  }

  // recover_processing_queue: the pending messages in order, until a signal or one
  // that does not end well.
  ghost predicate Passing(setup: Setup, w: World, stopping: bool, stops: nat -> bool, fates: nat -> ItemFate,
                          logs: seq<seq<Event>>) {
    && |logs| <= |w.lists.processing|
    && (forall k :: 0 <= k < |logs| ==> ItemAt(setup, w, w.lists.processing, fates, logs, k))
    && (forall k :: 0 <= k < |logs| ==> !stopping && !stops(k))
    && (forall k :: 0 <= k < |logs| - 1 ==> EndOfItem(logs[k]) == Fine)
  }

  predicate EndedWell(logs: seq<seq<Event>>) {
    logs == [] || EndOfItem(logs[|logs| - 1]) == Fine
  }

  ghost predicate PassDid(setup: Setup, w: World, listing: Request, stopping: bool, stops: nat -> bool,
                          fates: nat -> ItemFate, logs: seq<seq<Event>>) {
    && Passing(setup, w, stopping, stops, fates, logs)
    && (!listing.Works? ==> logs == [])
    && (PassStops(w, listing, logs) ==> stopping || stops(|logs|))
  }

  // The pass left messages because of a signal.
  predicate PassStops(w: World, listing: Request, logs: seq<seq<Event>>) {
    listing.Works? && |logs| < |w.lists.processing| && EndedWell(logs)
  }

  function PassEnd(listing: Request, logs: seq<seq<Event>>): End {
    if !listing.Works? then EndOf(listing)
    else if EndedWell(logs) || EndOfItem(logs[|logs| - 1]) == RedisFails then Fine
    else Dies
  }

  // One turn of the polling loop: arrivals, and unless a signal came, a pop, and what
  // becomes of the message if it was delivered.
  ghost predicate TurnDid(setup: Setup, w: World, stopping: bool, turn: Turn, es: seq<Event>) {
    && es != [] && es[0] == Arrived(turn.arrivals)
    && (if stopping || turn.stop || w.lists.input + turn.arrivals == [] || !Applied(turn.poll) then |es| == 1
        else
          && |es| >= 2 && es[1] == Taken
          && if !turn.poll.Works? then |es| == 2
             else
               var waiting := w.lists.input + turn.arrivals;
               ItemDid(setup, AfterEvents(setup, w, es[..2]), waiting[|waiting| - 1], turn.item, es[2..]))
  }

  predicate TurnDies(stopping: bool, turn: Turn, es: seq<Event>) {
    !stopping && !turn.stop && (turn.poll.Kills? || (|es| > 2 && EndOfItem(es[2..]) == Dies))
  }

  // No turn follows.
  predicate TurnIsLast(stopping: bool, turn: Turn, es: seq<Event>) {
    stopping || turn.stop || TurnDies(stopping, turn, es)
  }

  ghost predicate TurnAt(setup: Setup, w: World, stopping: bool, turns: seq<Turn>, logs: seq<seq<Event>>, t: nat)
    requires t < |logs| <= |turns|
  {
    TurnDid(setup, WorldAt(setup, w, logs, t), stopping, turns[t], logs[t])
  }

  // run: turns in order, until one is the last.
  ghost predicate Running(setup: Setup, w: World, stopping: bool, turns: seq<Turn>, logs: seq<seq<Event>>) {
    && |logs| <= |turns|
    && (forall t :: 0 <= t < |logs| ==> TurnAt(setup, w, stopping, turns, logs, t))
    && (forall t :: 0 <= t < |logs| - 1 ==> !TurnIsLast(stopping, turns[t], logs[t]))
  }

  predicate RunIsOver(stopping: bool, turns: seq<Turn>, logs: seq<seq<Event>>)
    requires |logs| <= |turns|
  {
    logs != [] && TurnIsLast(stopping, turns[|logs| - 1], logs[|logs| - 1])
  }

  ghost predicate RunDid(setup: Setup, w: World, stopping: bool, turns: seq<Turn>, logs: seq<seq<Event>>) {
    && Running(setup, w, stopping, turns, logs)
    && (|logs| < |turns| ==> RunIsOver(stopping, turns, logs))
  }

  // main: one process recovers what the one before it left, and then polls.
  datatype LifeLog = LifeLog(pass: seq<seq<Event>>, turns: seq<seq<Event>>)

  function EventsOf(log: LifeLog): seq<Event> {
    Flat(log.pass) + Flat(log.turns)
  }

  ghost predicate LifeDid(setup: Setup, w: World, life: Life, log: LifeLog) {
    && PassDid(setup, w, life.listing, false, life.stops, life.fates, log.pass)
    && if PassEnd(life.listing, log.pass) != Fine then log.turns == []
       else RunDid(setup, AfterEvents(setup, w, Flat(log.pass)), PassStops(w, life.listing, log.pass), life.turns,
                   log.turns)
  }

  function AllEvents(logs: seq<LifeLog>): seq<Event> {
    if logs == [] then [] else AllEvents(logs[..|logs| - 1]) + EventsOf(logs[|logs| - 1])
  }

  ghost predicate LifeAt(setup: Setup, w: World, lives: seq<Life>, logs: seq<LifeLog>, l: nat)
    requires l < |logs| <= |lives|
  {
    LifeDid(setup, AfterEvents(setup, w, AllEvents(logs[..l])), lives[l], logs[l])
  }

  ghost predicate Living(setup: Setup, w: World, lives: seq<Life>, logs: seq<LifeLog>) {
    |logs| <= |lives| && forall l :: 0 <= l < |logs| ==> LifeAt(setup, w, lives, logs, l)
  }

  // Every process did its part.
  ghost predicate LivesDid(setup: Setup, w: World, lives: seq<Life>, logs: seq<LifeLog>) {
    |logs| == |lives| && Living(setup, w, lives, logs)
  }

  // How such logs grow.
  lemma {:induction false} NextAttempt(setup: Setup, w: World, raw: string, fates: nat -> Fate, es: seq<Event>,
                                       e: Event)
    requires es == [] || (Trying(setup, w, raw, fates, es) && Raised(es[|es| - 1]))
    requires es == [] || |es| < setup.work.maxRetries
    requires AttemptDid(setup, AfterEvents(setup, w, es).collections, fates(|es| + 1), e) && e.raw == raw
    ensures Trying(setup, w, raw, fates, es + [e])
    ensures AfterEvents(setup, w, es + [e]) == AfterEvent(setup, AfterEvents(setup, w, es), e)
  {
    AfterSnoc(setup, w, es, e);
    hide AttemptDid, AfterEvents, AfterEvent;
    forall k | 0 <= k < |es + [e]|
      ensures AttemptAt(setup, w, raw, fates, es + [e], k)
    {
      assert (es + [e])[..k] == es[..k];
      if k < |es| {
        assert AttemptAt(setup, w, raw, fates, es, k);
      } else {
        assert es[..k] == es;
      }
    }
  }

  lemma {:induction false} NextItem(setup: Setup, w: World, stopping: bool, stops: nat -> bool,
                                    fates: nat -> ItemFate, logs: seq<seq<Event>>, es: seq<Event>)
    requires Passing(setup, w, stopping, stops, fates, logs) && EndedWell(logs)
    requires |logs| < |w.lists.processing| && !stopping && !stops(|logs|)
    requires ItemDid(setup, AfterEvents(setup, w, Flat(logs)), w.lists.processing[|logs|], fates(|logs|), es)
    ensures Passing(setup, w, stopping, stops, fates, logs + [es])
    ensures AfterEvents(setup, w, Flat(logs + [es])) == AfterEvents(setup, AfterEvents(setup, w, Flat(logs)), es)
  {
    FlatSnoc(logs, es);
    AfterConcat(setup, w, Flat(logs), es);
    hide ItemDid, AfterEvents, EndOfItem, Flat;
    var longer := logs + [es];
    forall k | 0 <= k < |longer|
      ensures ItemAt(setup, w, w.lists.processing, fates, longer, k)
    {
      assert longer[..k] == logs[..k];
      if k < |logs| {
        assert ItemAt(setup, w, w.lists.processing, fates, logs, k);
      } else {
        assert logs[..k] == logs;
      }
    }
  }

  lemma {:induction false} NextTurn(setup: Setup, w: World, stopping: bool, turns: seq<Turn>, logs: seq<seq<Event>>,
                                    es: seq<Event>)
    requires Running(setup, w, stopping, turns, logs) && |logs| < |turns| && !RunIsOver(stopping, turns, logs)
    requires TurnDid(setup, AfterEvents(setup, w, Flat(logs)), stopping, turns[|logs|], es)
    ensures Running(setup, w, stopping, turns, logs + [es])
    ensures AfterEvents(setup, w, Flat(logs + [es])) == AfterEvents(setup, AfterEvents(setup, w, Flat(logs)), es)
  {
    FlatSnoc(logs, es);
    AfterConcat(setup, w, Flat(logs), es);
    hide TurnDid, AfterEvents, TurnIsLast, Flat;
    var longer := logs + [es];
    forall t | 0 <= t < |longer|
      ensures TurnAt(setup, w, stopping, turns, longer, t)
    {
      assert longer[..t] == logs[..t];
      if t < |logs| {
        assert TurnAt(setup, w, stopping, turns, logs, t);
      } else {
        assert logs[..t] == logs;
      }
    }
  }

  lemma {:induction false} NextLife(setup: Setup, w: World, lives: seq<Life>, logs: seq<LifeLog>, log: LifeLog)
    requires Living(setup, w, lives, logs) && |logs| < |lives|
    requires LifeDid(setup, AfterEvents(setup, w, AllEvents(logs)), lives[|logs|], log)
    ensures Living(setup, w, lives, logs + [log])
    ensures AfterEvents(setup, w, AllEvents(logs + [log]))
         == AfterEvents(setup, AfterEvents(setup, w, AllEvents(logs)), EventsOf(log))
  {
    var longer := logs + [log];
    assert longer[..|logs|] == logs;
    AfterConcat(setup, w, AllEvents(logs), EventsOf(log));
    hide LifeDid, AfterEvents, EventsOf, AllEvents;
    forall l | 0 <= l < |longer|
      ensures LifeAt(setup, w, lives, longer, l)
    {
      assert longer[..l] == logs[..l];
      if l < |logs| {
        assert LifeAt(setup, w, lives, logs, l);
      } else {
        assert logs[..l] == logs;
      }
    }
  }
}
