// What holds of every log the consumer can leave: the books of arrivals and
// handlings, and which turn and which requests each handling belongs to.
module MessageFacts {
  import opened Wrappers
  import opened Ranges
  import opened VectorIndex
  import opened Messages
  import opened MessageLog

  function Handlings(es: seq<Event>): seq<Handling> {
    if es == [] then []
    else
      var last := es[|es| - 1];
      Handlings(es[..|es| - 1]) + if last.Concluded? then [last.handling] else []
  }

  function Arrivals(es: seq<Event>): multiset<string> {
    if es == [] then multiset{}
    else
      var last := es[|es| - 1];
      Arrivals(es[..|es| - 1]) + if last.Arrived? then multiset(last.messages) else multiset{}
  }

  lemma {:induction false} LogsAdd(a: seq<Event>, b: seq<Event>)
    ensures Handlings(a + b) == Handlings(a) + Handlings(b) && Arrivals(a + b) == Arrivals(a) + Arrivals(b)
  {
    if b == [] {
      assert a + b == a;
    } else {
      assert (a + b)[..|a + b| - 1] == a + b[..|b| - 1];
      LogsAdd(a, b[..|b| - 1]);
    }
  }

  lemma {:induction false} FlatStep(logs: seq<seq<Event>>, n: nat)
    requires n < |logs|
    ensures Flat(logs[..n + 1]) == Flat(logs[..n]) + logs[n]
    ensures Handlings(Flat(logs[..n + 1])) == Handlings(Flat(logs[..n])) + Handlings(logs[n])
    ensures Arrivals(Flat(logs[..n + 1])) == Arrivals(Flat(logs[..n])) + Arrivals(logs[n])
  {
    FlatSnoc(logs[..n], logs[n]);
    assert logs[..n + 1] == logs[..n] + [logs[n]];
    hide Handlings, Arrivals, Flat;
    LogsAdd(Flat(logs[..n]), logs[n]);
  }

  // The books after a log: what arrived grew by its arrivals, and the lost and
  // resolved messages by its handlings.
  ghost predicate Booked(w0: World, w: World, es: seq<Event>) {
    && Accounted(w0.lists, w0.history, w.lists, w.history, Handlings(es))
    && w.history.arrived == w0.history.arrived + Arrivals(es)
  }

  lemma {:induction false} EventIsBooked(setup: Setup, w: World, e: Event)
    ensures Booked(w, AfterEvent(setup, w, e), [e])
  {
    OneEvent(e);
    hide Handlings, Arrivals, Accounted, Changed, ListsAfter, HistoryAfter;
    var next := AfterEvent(setup, w, e);
    if e.Concluded? {
      OneHandled(w.lists, w.history, Ack(e.handling.raw, w.collections), e.handling);
      ArrivedStays(w.history, Ack(e.handling.raw, w.collections), e.handling);
    } else {
      FailedStays(setup, w, e);
      NothingHandled(w.lists, w.history, next.lists, next.history);
    }
  }

  lemma {:induction false} OneEvent(e: Event)
    ensures Handlings([e]) == if e.Concluded? then [e.handling] else []
    ensures Arrivals([e]) == if e.Arrived? then multiset(e.messages) else multiset{}
  {
    assert [e][..0] == [];
  }

  lemma {:induction false} ArrivedStays(history: History, ack: Ack, h: Handling)
    ensures HistoryAfter(history, ack, h.raised, h.remove, h.push).arrived == history.arrived
  {
  }

  lemma {:induction false} FailedStays(setup: Setup, w: World, e: Event)
    requires !e.Concluded?
    ensures var next := AfterEvent(setup, w, e);
            && next.lists.failed == w.lists.failed
            && next.history == w.history.(arrived := next.history.arrived)
            && next.history.arrived == w.history.arrived + if e.Arrived? then multiset(e.messages) else multiset{}
  {
    hide Changed;
  }

  // The books of every log.
  lemma {:induction false} EventsAreBooked(setup: Setup, w: World, es: seq<Event>)
    ensures Booked(w, AfterEvents(setup, w, es), es)
  {
    hide Accounted, AfterEvent;
    if es == [] {
      NothingHandled(w.lists, w.history, w.lists, w.history);
    } else {
      var init, last := es[..|es| - 1], es[|es| - 1];
      var before, after := AfterEvents(setup, w, init), AfterEvents(setup, w, es);
      EventsAreBooked(setup, w, init);
      EventIsBooked(setup, before, last);
      LogsAdd(init, [last]);
      assert init + [last] == es;
      AccountsAdd(w.lists, w.history, before.lists, before.history, after.lists, after.history, Handlings(init),
                  Handlings([last]));
    }
  }

  // No event decides which collections fit.
  lemma {:induction false} EventKeepsFit(setup: Setup, w: World, e: Event, raw: string)
    ensures CanIndex(setup, AfterEvent(setup, w, e).collections, raw) <==> CanIndex(setup, w.collections, raw)
  {
    hide VectorIndex.After;
  }

  lemma {:induction false} EventsKeepFit(setup: Setup, w: World, es: seq<Event>, raw: string)
    ensures CanIndex(setup, AfterEvents(setup, w, es).collections, raw) <==> CanIndex(setup, w.collections, raw)
  {
    hide CanIndex, AfterEvent;
    if es != [] {
      EventsKeepFit(setup, w, es[..|es| - 1], raw);
      EventKeepsFit(setup, AfterEvents(setup, w, es[..|es| - 1]), es[|es| - 1], raw);
    }
  }

  // A handling with these requests: it raised only if all attempts were stopped or
  // the message cannot be indexed, and did not only if it can.
  ghost predicate OfFate(setup: Setup, collections: Collections, h: Handling, fate: ItemFate) {
    && h.remove == fate.remove && h.push == fate.push
    && (h.raised && CanIndex(setup, collections, h.raw) ==> AllStop(fate.attempts, setup.work.maxRetries))
    && (!h.raised ==> CanIndex(setup, collections, h.raw))
  }

  lemma {:induction false} OnlyTried(es: seq<Event>)
    requires forall k :: 0 <= k < |es| ==> es[k].Tried?
    ensures Handlings(es) == [] && Arrivals(es) == multiset{}
  {
    if es != [] {
      OnlyTried(es[..|es| - 1]);
    }
  }

  lemma {:induction false} TriesDecide(setup: Setup, w: World, raw: string, fates: nat -> Fate, es: seq<Event>)
    requires TriesDid(setup, w, raw, fates, es)
    ensures forall k :: 0 <= k < |es| ==> es[k].Tried?
    ensures Raised(es[|es| - 1]) && CanIndex(setup, w.collections, raw) ==> AllStop(fates, setup.work.maxRetries)
    ensures Succeeded(es[|es| - 1]) ==> CanIndex(setup, w.collections, raw)
  {
    hide AfterEvents, CanIndex, GetsToStore;
    forall k | 0 <= k < |es|
      ensures es[k].Tried? && (Raised(es[k]) && CanIndex(setup, w.collections, raw) ==> fates(k + 1).Stops?)
      ensures Succeeded(es[k]) ==> CanIndex(setup, w.collections, raw)
    {
      assert AttemptAt(setup, w, raw, fates, es, k);
      EventsKeepFit(setup, w, es[..k], raw);
    }
    if Raised(es[|es| - 1]) && CanIndex(setup, w.collections, raw) {
      forall k: nat | 1 <= k && (k == 1 || k <= setup.work.maxRetries)
        ensures fates(k).Stops?
      {
        assert Raised(es[k - 1]) && fates(k - 1 + 1).Stops?;
      }
    }
  }

  // A message that can be indexed is indexed at the latest by the first allowed attempt
  // that nothing stops, if the process does not die before it.
  lemma {:induction false} RetrySucceeds(setup: Setup, w: World, raw: string, fates: nat -> Fate, es: seq<Event>,
                                         k: nat)
    requires TriesDid(setup, w, raw, fates, es) && CanIndex(setup, w.collections, raw)
    requires 1 <= k && (k == 1 || k <= setup.work.maxRetries) && fates(k).Clean?
    requires forall j: nat :: 1 <= j < k ==> fates(j).Clean? || !fates(j).dies
    ensures EndWith(es, Fine) && |es| <= k
  {
    hide AfterEvents, CanIndex;
    var last := if |es| < k then |es| else k;
    assert AttemptAt(setup, w, raw, fates, es, last - 1);
    EventsKeepFit(setup, w, es[..last - 1], raw);
  }

  // Raising for good takes max_retries attempts, or one if that is below two.
  lemma {:induction false} RaiseTakesAll(setup: Setup, w: World, raw: string, fates: nat -> Fate, es: seq<Event>)
    requires TriesDid(setup, w, raw, fates, es) && EndWith(es, Raises)
    ensures |es| == setup.work.maxRetries || (setup.work.maxRetries < 2 && |es| == 1)
  {
    hide AttemptAt;
    assert Raised(es[|es| - 1]);
  }

  // One call handles at most the one message, and nothing arrives in it.
  lemma {:induction false} ItemHandles(setup: Setup, w: World, raw: string, fate: ItemFate, es: seq<Event>)
    requires ItemDid(setup, w, raw, fate, es)
    ensures Arrivals(es) == multiset{} && |Handlings(es)| <= 1
    ensures EndOfItem(es) == Fine ==> |Handlings(es)| == 1
    ensures forall h :: h in Handlings(es) ==> h.raw == raw && OfFate(setup, w.collections, h, fate)
  {
    hide CanIndex, AllStop, TriesDid, Handlings, Arrivals;
    var tries := if es[|es| - 1].Tried? then es else es[..|es| - 1];
    TriesDecide(setup, w, raw, fate.attempts, tries);
    OnlyTried(tries);
    if !es[|es| - 1].Tried? {
      OneEvent(es[|es| - 1]);
      LogsAdd(tries, [es[|es| - 1]]);
      assert es == tries + [es[|es| - 1]];
    }
  }

  // A turn brings its own arrivals and handles at most one message: the one at the
  // right end of the input.
  lemma {:induction false} TurnHandles(setup: Setup, w: World, stopping: bool, turn: Turn, es: seq<Event>)
    requires TurnDid(setup, w, stopping, turn, es)
    ensures Arrivals(es) == multiset(turn.arrivals) && |Handlings(es)| <= 1
    ensures forall h :: h in Handlings(es) ==>
      var waiting := w.lists.input + turn.arrivals;
      waiting != [] && h.raw == waiting[|waiting| - 1] && OfFate(setup, w.collections, h, turn.item)
  {
    hide ItemDid, OfFate, Handlings, Arrivals, AfterEvents;
    TurnLog(es, turn.arrivals);
    if |es| > 2 {
      assert es[..2] == [Arrived(turn.arrivals), Taken];
      AfterTwo(setup, w, turn.arrivals);
      var waiting := w.lists.input + turn.arrivals;
      ItemHandles(setup, AfterEvents(setup, w, es[..2]), waiting[|waiting| - 1], turn.item, es[2..]);
    }
  }

  lemma {:induction false} TurnLog(es: seq<Event>, arrivals: seq<string>)
    requires es != [] && es[0] == Arrived(arrivals) && (|es| > 1 ==> es[1] == Taken)
    ensures Handlings(es) == if |es| > 2 then Handlings(es[2..]) else []
    ensures Arrivals(es) == multiset(arrivals) + if |es| > 2 then Arrivals(es[2..]) else multiset{}
  {
    OneEvent(es[0]);
    hide Handlings, Arrivals;
    if |es| == 1 {
      assert es == [es[0]];
    } else {
      OneEvent(es[1]);
      LogsAdd([es[0]], [es[1]]);
      if |es| == 2 {
        assert es == [es[0]] + [es[1]];
      } else {
        LogsAdd([es[0]] + [es[1]], es[2..]);
        assert es == [es[0]] + [es[1]] + es[2..];
      }
    }
  }

  // Handlings one to one with turns, in order.
  ghost predicate Matched(setup: Setup, collections: Collections, hs: seq<Handling>, turns: seq<Turn>, ts: seq<nat>) {
    && |ts| == |hs|
    && (forall i :: 0 <= i < |ts| ==> ts[i] < |turns| && OfFate(setup, collections, hs[i], turns[ts[i]].item))
    && (forall i, j :: 0 <= i < j < |ts| ==> ts[i] < ts[j])
  }

  // What arrived in the first n turns.
  function ArrivedIn(turns: seq<Turn>, n: nat): multiset<string>
    requires n <= |turns|
  {
    if n == 0 then multiset{} else ArrivedIn(turns, n - 1) + multiset(turns[n - 1].arrivals)
  }

  // The handlings of n turns belong to different turns, in order, and what arrived
  // is what these turns brought.
  lemma {:induction false} TurnsHandle(setup: Setup, w: World, stopping: bool, turns: seq<Turn>,
                                       logs: seq<seq<Event>>, n: nat) returns (ts: seq<nat>)
    requires Running(setup, w, stopping, turns, logs) && n <= |logs|
    ensures Arrivals(Flat(logs[..n])) == ArrivedIn(turns, n)
    ensures Matched(setup, w.collections, Handlings(Flat(logs[..n])), turns, ts)
    ensures forall i :: 0 <= i < |ts| ==> ts[i] < n
  {
    hide TurnDid, TurnIsLast, OfFate, AfterEvents, Handlings, Arrivals;
    if n == 0 {
      assert Flat(logs[..0]) == [];
      ts := [];
      OnlyTried([]);
    } else {
      ts := TurnsHandle(setup, w, stopping, turns, logs, n - 1);
      FlatStep(logs, n - 1);
      assert TurnAt(setup, w, stopping, turns, logs, n - 1);
      var here := WorldAt(setup, w, logs, n - 1);
      TurnHandles(setup, here, stopping, turns[n - 1], logs[n - 1]);
      var more := Handlings(logs[n - 1]);
      if more != [] {
        SameFit(setup, w, Flat(logs[..n - 1]), more[0], turns[n - 1].item);
      }
      hide Matched, Running, Flat;
      OneMoreTurn(setup, w.collections, Handlings(Flat(logs[..n - 1])), turns, ts, more, n - 1);
      ts := ts + if more == [] then [] else [n - 1];
    }
  }

  lemma {:induction false} OneMoreTurn(setup: Setup, collections: Collections, hs: seq<Handling>, turns: seq<Turn>,
                                       ts: seq<nat>, more: seq<Handling>, t: nat)
    requires Matched(setup, collections, hs, turns, ts) && forall i :: 0 <= i < |ts| ==> ts[i] < t
    requires t < |turns| && |more| <= 1 && (more != [] ==> OfFate(setup, collections, more[0], turns[t].item))
    ensures Matched(setup, collections, hs + more, turns, ts + if more == [] then [] else [t])
  {
    hide OfFate;
  }

  // It does not matter at which moment of a log the fit is judged.
  lemma {:induction false} SameFit(setup: Setup, w: World, es: seq<Event>, h: Handling, fate: ItemFate)
    ensures OfFate(setup, AfterEvents(setup, w, es).collections, h, fate) <==> OfFate(setup, w.collections, h, fate)
  {
    EventsKeepFit(setup, w, es, h.raw);
    hide CanIndex, AllStop;
  }

  // The handlings of a recovery pass are those of the first pending messages.
  lemma {:induction false} PassHandles(setup: Setup, w: World, stopping: bool, stops: nat -> bool,
                                       fates: nat -> ItemFate, logs: seq<seq<Event>>, n: nat)
    requires Passing(setup, w, stopping, stops, fates, logs) && n <= |logs|
    ensures var hs := Handlings(Flat(logs[..n]));
            && |hs| <= n && (n < |logs| ==> |hs| == n) && Arrivals(Flat(logs[..n])) == multiset{}
            && forall i :: 0 <= i < |hs| ==>
                 hs[i].raw == w.lists.processing[i] && OfFate(setup, w.collections, hs[i], fates(i))
  {
    hide ItemDid, EndOfItem, OfFate, AfterEvents, Handlings, Arrivals;
    if n == 0 {
      assert Flat(logs[..0]) == [];
      OnlyTried([]);
    } else {
      PassHandles(setup, w, stopping, stops, fates, logs, n - 1);
      FlatStep(logs, n - 1);
      assert ItemAt(setup, w, w.lists.processing, fates, logs, n - 1);
      ItemHandles(setup, WorldAt(setup, w, logs, n - 1), w.lists.processing[n - 1], fates(n - 1), logs[n - 1]);
      if Handlings(logs[n - 1]) != [] {
        SameFit(setup, w, Flat(logs[..n - 1]), Handlings(logs[n - 1])[0], fates(n - 1));
      }
    }
  }

  // A handling by one process, and by one of several.
  ghost predicate OfLife(setup: Setup, collections: Collections, h: Handling, life: Life) {
    || (exists k: nat :: OfFate(setup, collections, h, life.fates(k)))
    || (exists t :: 0 <= t < |life.turns| && OfFate(setup, collections, h, life.turns[t].item))
  }

  ghost predicate OfLives(setup: Setup, collections: Collections, h: Handling, lives: seq<Life>) {
    exists l :: 0 <= l < |lives| && OfLife(setup, collections, h, lives[l])
  }

  lemma {:induction false} LifeHandles(setup: Setup, w: World, life: Life, log: LifeLog)
    requires LifeDid(setup, w, life, log)
    ensures |log.turns| <= |life.turns| && Arrivals(EventsOf(log)) == ArrivedIn(life.turns, |log.turns|)
    ensures forall h :: h in Handlings(EventsOf(log)) ==> OfLife(setup, w.collections, h, life)
  {
    hide Passing, Running, RunIsOver, OfFate, AfterEvents, Handlings, Arrivals, Matched, Flat;
    LogsAdd(Flat(log.pass), Flat(log.turns));
    PassIsOfLife(setup, w, life, log.pass);
    if log.turns == [] {
      NothingFlat();
    } else {
      RunIsOfLife(setup, w, AfterEvents(setup, w, Flat(log.pass)), PassStops(w, life.listing, log.pass), life, log);
    }
  }

  lemma {:induction false} NothingFlat()
    ensures Handlings(Flat([])) == [] && Arrivals(Flat([])) == multiset{}
  {
  }

  lemma {:induction false} PassIsOfLife(setup: Setup, w: World, life: Life, logs: seq<seq<Event>>)
    requires Passing(setup, w, false, life.stops, life.fates, logs)
    ensures Arrivals(Flat(logs)) == multiset{}
    ensures forall h :: h in Handlings(Flat(logs)) ==> OfLife(setup, w.collections, h, life)
  {
    hide ItemAt, EndOfItem, OfFate, AfterEvents, Handlings, Arrivals;
    PassHandles(setup, w, false, life.stops, life.fates, logs, |logs|);
    assert logs[..|logs|] == logs;
  }

  lemma {:induction false} RunIsOfLife(setup: Setup, w0: World, w: World, stopping: bool, life: Life, log: LifeLog)
    requires Running(setup, w, stopping, life.turns, log.turns)
    requires w == AfterEvents(setup, w0, Flat(log.pass))
    ensures |log.turns| <= |life.turns| && Arrivals(Flat(log.turns)) == ArrivedIn(life.turns, |log.turns|)
    ensures forall h :: h in Handlings(Flat(log.turns)) ==> OfLife(setup, w0.collections, h, life)
  {
    hide TurnAt, TurnIsLast, OfFate, AfterEvents, Handlings, Arrivals;
    var ts := TurnsHandle(setup, w, stopping, life.turns, log.turns, |log.turns|);
    assert log.turns[..|log.turns|] == log.turns;
    var hs := Handlings(Flat(log.turns));
    forall h | h in hs
      ensures OfLife(setup, w0.collections, h, life)
    {
      var i :| 0 <= i < |hs| && hs[i] == h;
      SameFit(setup, w0, Flat(log.pass), h, life.turns[ts[i]].item);
    }
  }

  // What arrived in the turns that the first n processes ran.
  function ArrivedInLives(lives: seq<Life>, logs: seq<LifeLog>, n: nat): multiset<string>
    requires n <= |logs| && n <= |lives|
  {
    if n == 0 then multiset{}
    else
      ArrivedInLives(lives, logs, n - 1)
      + ArrivedIn(lives[n - 1].turns, UpTo(|logs[n - 1].turns|, |lives[n - 1].turns|))
  }

  // Over any number of processes, every handling has the requests of some message of
  // one of them, and what arrived is what their turns brought.
  lemma {:induction false} LivesHandle(setup: Setup, w: World, lives: seq<Life>, logs: seq<LifeLog>, n: nat)
    requires Living(setup, w, lives, logs) && n <= |logs|
    ensures Arrivals(AllEvents(logs[..n])) == ArrivedInLives(lives, logs, n)
    ensures forall h :: h in Handlings(AllEvents(logs[..n])) ==> OfLives(setup, w.collections, h, lives)
  {
    hide LifeDid, OfLife, AfterEvents, Handlings, Arrivals, EventsOf;
    if n == 0 {
      assert logs[..0] == [];
      OnlyTried([]);
    } else {
      var before := AllEvents(logs[..n - 1]);
      LivesHandle(setup, w, lives, logs, n - 1);
      assert logs[..n][..n - 1] == logs[..n - 1];
      LogsAdd(before, EventsOf(logs[n - 1]));
      assert LifeAt(setup, w, lives, logs, n - 1);
      LifeHandles(setup, AfterEvents(setup, w, before), lives[n - 1], logs[n - 1]);
      forall h | h in Handlings(EventsOf(logs[n - 1]))
        ensures OfLives(setup, w.collections, h, lives)
      {
        SameLife(setup, w, before, h, lives[n - 1]);
      }
    }
  }

  lemma {:induction false} SameLife(setup: Setup, w: World, es: seq<Event>, h: Handling, life: Life)
    requires OfLife(setup, AfterEvents(setup, w, es).collections, h, life)
    ensures OfLife(setup, w.collections, h, life)
  {
    hide OfFate, AfterEvents;
    var c := AfterEvents(setup, w, es).collections;
    if k: nat :| OfFate(setup, c, h, life.fates(k)) {
      SameFit(setup, w, es, h, life.fates(k));
    } else {
      var t :| 0 <= t < |life.turns| && OfFate(setup, c, h, life.turns[t].item);
      SameFit(setup, w, es, h, life.turns[t].item);
    }
  }

  // Processes in which no removal can be followed by a failing dead letter lose
  // nothing.
  lemma {:induction false} CarefulLivesLoseNothing(setup: Setup, collections: Collections, hs: seq<Handling>,
                                                   lives: seq<Life>)
    requires forall h :: h in hs ==> OfLives(setup, collections, h, lives)
    requires forall l :: 0 <= l < |lives| ==> Careful(lives[l])
    ensures forall h :: h in hs ==> OutcomeOf(h) != Lost
  {
    forall h | h in hs
      ensures OutcomeOf(h) != Lost
    {
      var l :| 0 <= l < |lives| && OfLife(setup, collections, h, lives[l]);
      assert Careful(lives[l]);
      hide CanIndex, AllStop;
    }
  }

  lemma {:induction false} NothingYet(setup: Setup, w: World)
    ensures AfterEvents(setup, w, []) == AfterEvents(setup, w, Flat([])) == AfterEvents(setup, w, AllEvents([])) == w
  {
  }

  lemma {:induction false} AfterTwo(setup: Setup, w: World, arrivals: seq<string>)
    ensures AfterEvents(setup, w, [Arrived(arrivals)]) == AfterEvent(setup, w, Arrived(arrivals))
    ensures AfterEvents(setup, w, [Arrived(arrivals), Taken])
         == AfterEvent(setup, AfterEvent(setup, w, Arrived(arrivals)), Taken)
  {
    hide AfterEvent;
    AfterSnoc(setup, w, [], Arrived(arrivals));
    AfterSnoc(setup, w, [Arrived(arrivals)], Taken);
    assert [] + [Arrived(arrivals)] == [Arrived(arrivals)];
    assert [Arrived(arrivals)] + [Taken] == [Arrived(arrivals), Taken];
  }

  lemma {:induction false} ItemEndsSomehow(setup: Setup, w: World, raw: string, fate: ItemFate, es: seq<Event>)
    requires ItemDid(setup, w, raw, fate, es)
    ensures es != [] && EndOfItem(es) != Raises && (EndOfItem(es) == RedisFails ==> RedisRefuses(fate))
  {
    hide TriesDid;
  }

  lemma {:induction false} TriesKeepLists(setup: Setup, w: World, es: seq<Event>)
    requires forall k :: 0 <= k < |es| ==> es[k].Tried?
    ensures AfterEvents(setup, w, es).lists == w.lists && AfterEvents(setup, w, es).history == w.history
  {
    if es != [] {
      TriesKeepLists(setup, w, es[..|es| - 1]);
    }
  }

  // A message that was handled: its attempts, and the conclusion.
  lemma {:induction false} ItemConcludes(setup: Setup, w: World, raw: string, fate: ItemFate, es: seq<Event>)
    requires ItemDid(setup, w, raw, fate, es) && es[|es| - 1].Concluded?
    ensures var after, h := AfterEvents(setup, w, es), es[|es| - 1].handling;
            && h == Handling(raw, h.raised, fate.remove, fate.push)
            && after.lists == ListsAfter(w.lists, raw, h.raised, fate.remove, fate.push)
            && after.history
               == HistoryAfter(w.history, Ack(raw, after.collections), h.raised, fate.remove, fate.push)
  {
    var tries := es[..|es| - 1];
    TriesDecide(setup, w, raw, fate.attempts, tries);
    TriesKeepLists(setup, w, tries);
    hide TriesDid, ListsAfter, HistoryAfter;
  }

  lemma {:induction false} ItemRecovers(setup: Setup, w0: World, w: World, raw: string, fate: ItemFate, es: seq<Event>,
                                        k: nat)
    requires ItemDid(setup, w, raw, fate, es) && EndOfItem(es) == Fine
    requires Recovering(w0.lists, w0.history, w.lists, w.history, k)
    requires k < |w0.lists.processing| && raw == w0.lists.processing[k]
    ensures var after := AfterEvents(setup, w, es);
            Recovering(w0.lists, w0.history, after.lists, after.history, k + 1)
  {
    ItemConcludes(setup, w, raw, fate, es);
    var h := es[|es| - 1].handling;
    RecoveryGoesOn(w0.lists, w0.history, w.lists, w.history, Ack(raw, AfterEvents(setup, w, es).collections), h.raised,
                   fate.push, k);
    hide ItemDid, AfterEvents, Recovering, ListsAfter, HistoryAfter;
  }

  // A malformed message raises in every attempt and changes nothing in the index.
  lemma {:induction false} MalformedRaises(setup: Setup, w: World, raw: string, fate: ItemFate, es: seq<Event>)
    requires ItemDid(setup, w, raw, fate, es) && setup.work.lookup(raw).Malformed?
    requires forall k :: fate.attempts(k).Clean?
    ensures es[|es| - 1] == Concluded(Handling(raw, true, fate.remove, fate.push))
  {
    var tries := if es[|es| - 1].Tried? then es else es[..|es| - 1];
    assert AttemptAt(setup, w, raw, fate.attempts, tries, |tries| - 1);
    hide AfterEvents;
  }

  // The books of a run, and of a succession of processes.
  lemma {:induction false} RunBooks(setup: Setup, w: World, stopping: bool, turns: seq<Turn>, logs: seq<seq<Event>>)
    requires Running(setup, w, stopping, turns, logs)
    ensures var after := AfterEvents(setup, w, Flat(logs));
            && after.history.arrived == w.history.arrived + ArrivedIn(turns, |logs|)
            && Accounted(w.lists, w.history, after.lists, after.history, Handlings(Flat(logs)))
            && ((forall t :: 0 <= t < |turns| ==> !CanLose(turns[t].item)) ==> after.history.lost == w.history.lost)
  {
    hide TurnAt, TurnIsLast, AfterEvents, Handlings, Arrivals, Accounted;
    EventsAreBooked(setup, w, Flat(logs));
    var ts := TurnsHandle(setup, w, stopping, turns, logs, |logs|);
    assert logs[..|logs|] == logs;
    var after, hs := AfterEvents(setup, w, Flat(logs)), Handlings(Flat(logs));
    NoneLost(w.lists, w.history, after.lists, after.history, hs);
    if forall t :: 0 <= t < |turns| ==> !CanLose(turns[t].item) {
      forall h | h in hs
        ensures OutcomeOf(h) != Lost
      {
        var i :| 0 <= i < |hs| && hs[i] == h;
        assert OfFate(setup, w.collections, h, turns[ts[i]].item);
        assert !CanLose(turns[ts[i]].item);
      }
    }
  }

  lemma {:induction false} LivesBooks(setup: Setup, w: World, lives: seq<Life>, logs: seq<LifeLog>)
    requires LivesDid(setup, w, lives, logs)
    ensures var after, hs := AfterEvents(setup, w, AllEvents(logs)), Handlings(AllEvents(logs));
            && after.history.arrived == w.history.arrived + ArrivedInLives(lives, logs, |lives|)
            && Accounted(w.lists, w.history, after.lists, after.history, hs)
            && (forall h :: h in hs ==> OfLives(setup, w.collections, h, lives))
            && ((forall l :: 0 <= l < |lives| ==> Careful(lives[l])) ==> after.history.lost == w.history.lost)
  {
    hide LifeAt, AfterEvents, Handlings, Arrivals, Accounted, OfLives, Careful;
    EventsAreBooked(setup, w, AllEvents(logs));
    LivesHandle(setup, w, lives, logs, |logs|);
    assert logs[..|logs|] == logs;
    var after, hs := AfterEvents(setup, w, AllEvents(logs)), Handlings(AllEvents(logs));
    NoneLost(w.lists, w.history, after.lists, after.history, hs);
    if forall l :: 0 <= l < |lives| ==> Careful(lives[l]) {
      CarefulLivesLoseNothing(setup, w.collections, hs, lives);
    }
  }
}
