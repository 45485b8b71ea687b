// Which of two versions of a document ends up in the index: the input list is pushed
// and popped at the same end, so of two messages that wait together the newer one is
// taken first.
module ArrivalOrder {
  import opened Wrappers
  import opened Ranges
  import opened Chunks
  import opened VectorIndex
  import opened VectorIndexFacts
  import opened Consumer
  import opened Messages
  import opened MessageLog
  import opened MessageFacts
  import opened MessageIndex

  // A turn in which nothing is stopped, refused or lost.
  ghost predicate Smooth(turn: Turn) {
    && !turn.stop && turn.poll.Works? && turn.item.remove.Works? && turn.item.push.Works?
    && forall k: nat :: turn.item.attempts(k).Clean?
  }

  // The input list after n such turns, and what waits in turn n when it is polled.
  function Left(input: seq<string>, turns: seq<Turn>, n: nat): seq<string>
    requires n <= |turns|
  {
    if n == 0 then input
    else
      var waiting := Left(input, turns, n - 1) + turns[n - 1].arrivals;
      if waiting == [] then [] else waiting[..|waiting| - 1]
  }

  function Waiting(input: seq<string>, turns: seq<Turn>, n: nat): seq<string>
    requires n < |turns|
  {
    Left(input, turns, n) + turns[n].arrivals
  }

  // The message that turn n serves, and how often one was served before it.
  function Served(input: seq<string>, turns: seq<Turn>, n: nat): Option<string>
    requires n < |turns|
  {
    var waiting := Waiting(input, turns, n);
    if waiting == [] then None else Some(waiting[|waiting| - 1])
  }

  function TimesServed(input: seq<string>, turns: seq<Turn>, raw: string, n: nat): nat
    requires n <= |turns|
  {
    if n == 0 then 0
    else TimesServed(input, turns, raw, n - 1) + if Served(input, turns, n - 1) == Some(raw) then 1 else 0
  }

  lemma {:induction false} PopCounts(waiting: seq<string>, raw: string)
    requires waiting != []
    ensures multiset(waiting)[raw]
         == multiset(waiting[..|waiting| - 1])[raw] + if waiting[|waiting| - 1] == raw then 1 else 0
  {
    assert waiting == waiting[..|waiting| - 1] + [waiting[|waiting| - 1]];
  }

  // How often a message came by turn n.
  ghost function TimesCome(input: seq<string>, turns: seq<Turn>, raw: string, n: nat): nat
    requires n <= |turns|
  {
    multiset(input)[raw] + ArrivedIn(turns, n)[raw]
  }

  // What came is waiting or served.
  lemma {:induction false} Conserved(input: seq<string>, turns: seq<Turn>, raw: string, n: nat)
    requires n <= |turns|
    ensures multiset(Left(input, turns, n))[raw] + TimesServed(input, turns, raw, n) == TimesCome(input, turns, raw, n)
  {
    if n > 0 {
      Conserved(input, turns, raw, n - 1);
      TurnCounts(input, turns, raw, n - 1);
      ComeStep(input, turns, raw, n - 1);
      hide Left, Served, ArrivedIn, TimesCome;
    }
  }

  // What was left and what arrived is served or left.
  lemma {:induction false} TurnCounts(input: seq<string>, turns: seq<Turn>, raw: string, n: nat)
    requires n < |turns|
    ensures multiset(Left(input, turns, n + 1))[raw] + (if Served(input, turns, n) == Some(raw) then 1 else 0)
         == multiset(Left(input, turns, n))[raw] + multiset(turns[n].arrivals)[raw]
  {
    Adds(Left(input, turns, n), turns[n].arrivals, raw);
    TakesLast(input, turns, n);
    hide Left, Served;
    if Waiting(input, turns, n) != [] {
      PopCounts(Waiting(input, turns, n), raw);
    }
  }

  lemma {:induction false} TakesLast(input: seq<string>, turns: seq<Turn>, n: nat)
    requires n < |turns|
    ensures var waiting, left, served := Waiting(input, turns, n), Left(input, turns, n + 1), Served(input, turns, n);
            if waiting == [] then left == [] && served == None
            else left == waiting[..|waiting| - 1] && served == Some(waiting[|waiting| - 1])
  {
  }

  lemma {:induction false} Adds(a: seq<string>, b: seq<string>, raw: string)
    ensures multiset(a + b)[raw] == multiset(a)[raw] + multiset(b)[raw]
  {
  }

  lemma {:induction false} ComeStep(input: seq<string>, turns: seq<Turn>, raw: string, n: nat)
    requires n < |turns|
    ensures TimesCome(input, turns, raw, n + 1) == TimesCome(input, turns, raw, n) + multiset(turns[n].arrivals)[raw]
  {
  }

  lemma {:induction false} TimesGrow(input: seq<string>, turns: seq<Turn>, raw: string, m: nat, n: nat)
    requires m <= n <= |turns|
    ensures TimesCome(input, turns, raw, m) <= TimesCome(input, turns, raw, n)
    ensures TimesServed(input, turns, raw, m) <= TimesServed(input, turns, raw, n)
  {
    hide Served;
    if m < n {
      TimesGrow(input, turns, raw, m, n - 1);
    }
  }

  // The message comes once in all.
  ghost predicate Once(input: seq<string>, turns: seq<Turn>, raw: string) {
    TimesCome(input, turns, raw, |turns|) == 1
  }

  // A message that comes once is not waiting after it was served, and not served again.
  lemma {:induction false} ServedOnce(input: seq<string>, turns: seq<Turn>, raw: string, s: nat, t: nat)
    requires Once(input, turns, raw) && s < t < |turns| && Served(input, turns, s) == Some(raw)
    ensures raw !in Waiting(input, turns, t) && Served(input, turns, t) != Some(raw)
  {
    ServedWaits(input, turns, t);
    hide Served, Left, Waiting, TimesCome;
    WaitingOrServed(input, turns, raw, t);
    TimesGrow(input, turns, raw, s + 1, t);
  }

  lemma {:induction false} WaitingOrServed(input: seq<string>, turns: seq<Turn>, raw: string, t: nat)
    requires t < |turns|
    ensures multiset(Waiting(input, turns, t))[raw] + TimesServed(input, turns, raw, t)
         <= TimesCome(input, turns, raw, |turns|)
  {
    hide Served, Left, TimesCome;
    Conserved(input, turns, raw, t);
    Adds(Left(input, turns, t), turns[t].arrivals, raw);
    ComeStep(input, turns, raw, t);
    TimesGrow(input, turns, raw, t + 1, |turns|);
  }

  lemma {:induction false} ServedWaits(input: seq<string>, turns: seq<Turn>, t: nat)
    requires t < |turns|
    ensures Served(input, turns, t).Some? ==> Served(input, turns, t).value in Waiting(input, turns, t)
  {
  }

  // What waits at a place of the stack is there, with everything below it, until it is
  // served.
  lemma {:induction false} StackStays(input: seq<string>, turns: seq<Turn>, j: nat, q: nat, t: nat)
    requires j <= t < |turns| && q < |Waiting(input, turns, j)|
    requires forall s :: j <= s < t ==> Served(input, turns, s) != Some(Waiting(input, turns, j)[q])
    ensures Waiting(input, turns, j)[..q + 1] <= Waiting(input, turns, t)
  {
    if j < t {
      StackStays(input, turns, j, q, t - 1);
      var bottom, above := Waiting(input, turns, j)[..q + 1], Waiting(input, turns, t - 1);
      assert bottom == above[..q + 1] && bottom[q] == above[q];
      assert Served(input, turns, t - 1) != Some(bottom[q]);
      assert |above| > q + 1;
      assert Left(input, turns, t) == above[..|above| - 1];
    }
  }

  // The older message came before the newer one, which is number i of turn j.
  ghost predicate CameBefore(input: seq<string>, turns: seq<Turn>, older: string, j: nat, i: nat) {
    && j < |turns| && i < |turns[j].arrivals|
    && (TimesCome(input, turns, older, j) > 0 || older in turns[j].arrivals[..i])
  }

  // Last in, first out: the newer message is served after the older one exactly when
  // the older one was served before the newer one came.
  lemma {:induction false} NewerServedLast(input: seq<string>, turns: seq<Turn>, older: string, newer: string, j: nat,
                                           i: nat, so: nat, sn: nat)
    requires older != newer && Once(input, turns, older) && Once(input, turns, newer)
    requires CameBefore(input, turns, older, j, i) && turns[j].arrivals[i] == newer
    requires so < |turns| && sn < |turns|
    requires Served(input, turns, so) == Some(older) && Served(input, turns, sn) == Some(newer)
    ensures j <= sn && (so < sn <==> so < j)
  {
    NotServedBefore(input, turns, newer, j, i, sn);
    if so >= j {
      var q := |Left(input, turns, j)| + i;
      var waiting := Waiting(input, turns, j);
      StillWaiting(input, turns, older, j, i, so);
      assert waiting[q] == newer;
      forall s | j <= s < sn
        ensures Served(input, turns, s) != Some(newer)
      {
        if Served(input, turns, s) == Some(newer) {
          ServedOnce(input, turns, newer, s, sn);
        }
      }
      StackStays(input, turns, j, q, sn);
      var p :| 0 <= p < q && waiting[p] == older;
      assert waiting[..q + 1][p] == older && older in Waiting(input, turns, sn);
      if so < sn {
        ServedOnce(input, turns, older, so, sn);
      }
    }
  }

  // A message is not served before it comes.
  lemma {:induction false} NotServedBefore(input: seq<string>, turns: seq<Turn>, raw: string, j: nat, i: nat, s: nat)
    requires Once(input, turns, raw) && j < |turns| && i < |turns[j].arrivals| && turns[j].arrivals[i] == raw
    requires s < |turns| && Served(input, turns, s) == Some(raw)
    ensures j <= s
  {
    hide Left;
    assert Waiting(input, turns, j)[|Left(input, turns, j)| + i] == raw;
    if s < j {
      ServedOnce(input, turns, raw, s, j);
    }
  }

  lemma {:induction false} StillWaiting(input: seq<string>, turns: seq<Turn>, older: string, j: nat, i: nat, so: nat)
    requires Once(input, turns, older) && CameBefore(input, turns, older, j, i)
    requires j <= so < |turns| && Served(input, turns, so) == Some(older)
    ensures exists p :: 0 <= p < |Left(input, turns, j)| + i && Waiting(input, turns, j)[p] == older
  {
    var waiting, q := Waiting(input, turns, j), |Left(input, turns, j)| + i;
    if older in turns[j].arrivals[..i] {
      var m :| 0 <= m < i && turns[j].arrivals[m] == older;
      assert waiting[|Left(input, turns, j)| + m] == older;
    } else {
      Conserved(input, turns, older, j);
      NoneServed(input, turns, older, j, so);
      hide TimesServed, TimesCome, Served;
      assert older in multiset(Left(input, turns, j));
      var p :| 0 <= p < |Left(input, turns, j)| && Left(input, turns, j)[p] == older;
      assert waiting[p] == older;
    }
  }

  lemma {:induction false} NoneServed(input: seq<string>, turns: seq<Turn>, raw: string, n: nat, s: nat)
    requires Once(input, turns, raw) && n <= s < |turns| && Served(input, turns, s) == Some(raw)
    ensures TimesServed(input, turns, raw, n) == 0
  {
    hide Served, Once;
    if n > 0 {
      NoneServed(input, turns, raw, n - 1, s);
      if Served(input, turns, n - 1) == Some(raw) {
        ServedOnce(input, turns, raw, n - 1, s);
      }
    }
  }

  // The log of a smooth turn: the message at the right end is tried, and concluded.
  lemma {:induction false} SmoothTurn(setup: Setup, w: World, turn: Turn, es: seq<Event>)
    requires TurnDid(setup, w, false, turn, es) && Smooth(turn)
    ensures !TurnIsLast(false, turn, es)
    ensures var waiting, after := w.lists.input + turn.arrivals, AfterEvents(setup, w, es);
            && after.lists.input == (if waiting == [] then [] else waiting[..|waiting| - 1])
            && after.collections == if waiting == [] then w.collections
                                    else Indexed(setup, w.collections, waiting[|waiting| - 1])
  {
    AfterTwo(setup, w, turn.arrivals);
    hide ItemDid, Indexed, AfterEvents, EndOfItem;
    var waiting := w.lists.input + turn.arrivals;
    if waiting == [] {
      assert es == [Arrived(turn.arrivals)];
    } else {
      var before := AfterEvents(setup, w, es[..2]);
      assert es[..2] == [Arrived(turn.arrivals), Taken] && es == es[..2] + es[2..];
      AfterConcat(setup, w, es[..2], es[2..]);
      SmoothItem(setup, before, waiting[|waiting| - 1], turn.item, es[2..]);
    }
  }

  // What serving a message without a stop makes of the store.
  function Indexed(setup: Setup, collections: Collections, raw: string): Collections {
    if Needs(setup.work, raw) && CanIndex(setup, collections, raw) then
      Changed(setup, collections, Asked(setup.work, raw, Finished))
    else collections
  }

  lemma {:induction false} SmoothItem(setup: Setup, w: World, raw: string, fate: ItemFate, es: seq<Event>)
    requires ItemDid(setup, w, raw, fate, es)
    requires fate.remove.Works? && fate.push.Works? && forall k: nat :: fate.attempts(k).Clean?
    ensures EndOfItem(es) == Fine
    ensures var after := AfterEvents(setup, w, es);
            after.lists.input == w.lists.input && after.collections == Indexed(setup, w.collections, raw)
  {
    var tries := if es[|es| - 1].Tried? then es else es[..|es| - 1];
    SmoothTries(setup, w, raw, fate.attempts, tries, |tries|);
    assert tries[..|tries|] == tries;
    assert AttemptAt(setup, w, raw, fate.attempts, tries, |tries| - 1);
    hide TriesDid, AttemptDid, Indexed;
  }

  lemma {:induction false} SmoothTries(setup: Setup, w: World, raw: string, fates: nat -> Fate, es: seq<Event>, n: nat)
    requires TriesDid(setup, w, raw, fates, es) && n <= |es| && forall k: nat :: fates(k).Clean?
    ensures AfterEvents(setup, w, es[..n]).lists == w.lists
    ensures AfterEvents(setup, w, es[..n]).collections == if n == 0 then w.collections
                                                          else Indexed(setup, w.collections, raw)
  {
    hide Changed, Needs, CanIndex;
    if n > 0 {
      SmoothTries(setup, w, raw, fates, es, n - 1);
      AfterSnoc(setup, w, es[..n - 1], es[n - 1]);
      assert es[..n] == es[..n - 1] + [es[n - 1]];
      assert AttemptAt(setup, w, raw, fates, es, n - 1) && AttemptAt(setup, w, raw, fates, es, 0);
      EventsKeepFit(setup, w, es[..n - 1], raw);
      assert es[..0] == [];
    }
  }

  // A run of smooth turns.
  ghost predicate SmoothRun(setup: Setup, w: World, turns: seq<Turn>, logs: seq<seq<Event>>) {
    && RunDid(setup, w, false, turns, logs)
    && forall t :: 0 <= t < |turns| ==> Smooth(turns[t])
  }

  ghost predicate InStep(setup: Setup, w: World, turns: seq<Turn>, logs: seq<seq<Event>>, n: nat)
    requires n < |logs| <= |turns|
  {
    var here, served := WorldAt(setup, w, logs, n), Served(w.lists.input, turns, n);
    && here.lists.input == Left(w.lists.input, turns, n)
    && WorldAt(setup, w, logs, n + 1).collections
       == if served.None? then here.collections else Indexed(setup, here.collections, served.value)
  }

  // It runs to its end, and its lists and store go turn by turn.
  lemma {:induction false} SmoothRunsOut(setup: Setup, w: World, turns: seq<Turn>, logs: seq<seq<Event>>)
    requires SmoothRun(setup, w, turns, logs)
    ensures |logs| == |turns|
  {
    hide TurnAt, AfterEvents, TurnIsLast, Smooth;
    if logs != [] {
      TurnGoesOn(setup, w, turns, logs, |logs| - 1);
    }
  }

  lemma {:induction false} SmoothSteps(setup: Setup, w: World, turns: seq<Turn>, logs: seq<seq<Event>>, n: nat)
    requires SmoothRun(setup, w, turns, logs) && n < |turns| == |logs|
    ensures InStep(setup, w, turns, logs, n)
    ensures WorldAt(setup, w, logs, n + 1).lists.input == Left(w.lists.input, turns, n + 1)
  {
    hide SmoothRun, AfterEvents, TurnIsLast, Indexed, Left, Served;
    TurnGoesOn(setup, w, turns, logs, n);
    TakesLast(w.lists.input, turns, n);
    if n > 0 {
      SmoothSteps(setup, w, turns, logs, n - 1);
    } else {
      NothingYet(setup, w);
      NothingTaken(w.lists.input, turns);
    }
  }

  lemma {:induction false} NothingTaken(input: seq<string>, turns: seq<Turn>)
    ensures Left(input, turns, 0) == input
  {
  }

  lemma {:induction false} TurnGoesOn(setup: Setup, w: World, turns: seq<Turn>, logs: seq<seq<Event>>, n: nat)
    requires SmoothRun(setup, w, turns, logs) && n < |logs| <= |turns|
    ensures !TurnIsLast(false, turns[n], logs[n])
    ensures var waiting := WorldAt(setup, w, logs, n).lists.input + turns[n].arrivals;
            var next := WorldAt(setup, w, logs, n + 1);
            && next.lists.input == (if waiting == [] then [] else waiting[..|waiting| - 1])
            && next.collections == if waiting == [] then WorldAt(setup, w, logs, n).collections
                                   else Indexed(setup, WorldAt(setup, w, logs, n).collections,
                                                waiting[|waiting| - 1])
  {
    assert TurnAt(setup, w, false, turns, logs, n);
    SmoothTurn(setup, WorldAt(setup, w, logs, n), turns[n], logs[n]);
    FlatStep(logs, n);
    AfterConcat(setup, w, Flat(logs[..n]), logs[n]);
    hide TurnDid, AfterEvents, TurnIsLast, Indexed, Smooth, Flat;
  }

  lemma {:induction false} SmoothKeepsIndex(setup: Setup, w: World, turns: seq<Turn>, logs: seq<seq<Event>>, n: nat)
    requires SmoothRun(setup, w, turns, logs) && n <= |turns| == |logs|
    requires Trusted(setup.work, setup.sink) && IndexKept(setup.sink, w.collections)
    ensures IndexKept(setup.sink, WorldAt(setup, w, logs, n).collections)
  {
    hide Trusted, IndexKept, AfterEvents, Changed, Needs, CanIndex, SmoothRun, Served, Left;
    if n == 0 {
      NothingYet(setup, w);
    } else {
      SmoothKeepsIndex(setup, w, turns, logs, n - 1);
      SmoothSteps(setup, w, turns, logs, n - 1);
      var served, here := Served(w.lists.input, turns, n - 1), WorldAt(setup, w, logs, n - 1).collections;
      if served.Some? && Needs(setup.work, served.value) {
        ChangeKeepsIndex(setup, here, served.value, Asked(setup.work, served.value, Finished));
      }
    }
  }

  // Both messages are for the same document in the same collection.
  predicate SamePlace(work: Work, a: string, b: string) {
    && Needs(work, a) && Needs(work, b) && CollectionOf(work, a) == CollectionOf(work, b)
    && work.lookup(a).document.documentId == work.lookup(b).document.documentId
  }

  // The store holds exactly the chunks of this message's document.
  ghost predicate HoldsVersion(setup: Setup, collections: Collections, raw: string) {
    && Needs(setup.work, raw)
    && Holding(setup.sink, collections, CollectionOf(setup.work, raw), setup.work.lookup(raw).document,
               setup.work.prepare(setup.work.lookup(raw).document))
  }

  lemma {:induction false} IndexedHolds(setup: Setup, collections: Collections, raw: string)
    requires Trusted(setup.work, setup.sink) && IndexKept(setup.sink, collections)
    requires Needs(setup.work, raw) && CanIndex(setup, collections, raw)
    ensures HoldsVersion(setup, Indexed(setup, collections, raw), raw)
  {
    hide Trusted, IndexKept, Changed, Holding;
    FinishedHolds(setup, collections, raw);
  }

  lemma {:induction false} IndexedKeeps(setup: Setup, collections: Collections, raw: string, other: string)
    requires Trusted(setup.work, setup.sink) && IndexKept(setup.sink, collections)
    requires HoldsVersion(setup, collections, raw) && !SamePlace(setup.work, raw, other)
    ensures HoldsVersion(setup, Indexed(setup, collections, other), raw)
  {
    hide Trusted, IndexKept, Changed, Holding;
    if Needs(setup.work, other) && CanIndex(setup, collections, other) {
      var document := setup.work.lookup(raw).document;
      OtherChangeKeeps(setup, collections, other, Asked(setup.work, other, Finished), CollectionOf(setup.work, raw),
                       document, setup.work.prepare(document));
    }
  }

  // The last version served is the one the store holds.
  lemma {:induction false} LastServedHolds(setup: Setup, w: World, turns: seq<Turn>, logs: seq<seq<Event>>, raw: string,
                                           s: nat, n: nat)
    requires SmoothRun(setup, w, turns, logs) && s < n <= |turns| == |logs|
    requires Trusted(setup.work, setup.sink) && IndexKept(setup.sink, w.collections)
    requires Served(w.lists.input, turns, s) == Some(raw)
    requires Needs(setup.work, raw) && CanIndex(setup, w.collections, raw)
    requires forall t :: s < t < n ==>
      var served := Served(w.lists.input, turns, t);
      served.Some? ==> !SamePlace(setup.work, raw, served.value)
    ensures HoldsVersion(setup, WorldAt(setup, w, logs, n).collections, raw)
  {
    hide Trusted, IndexKept, AfterEvents, Indexed, HoldsVersion, SmoothRun, Needs, CanIndex, SamePlace, Served;
    SmoothSteps(setup, w, turns, logs, n - 1);
    SmoothKeepsIndex(setup, w, turns, logs, n - 1);
    var here := WorldAt(setup, w, logs, n - 1).collections;
    if n == s + 1 {
      EventsKeepFit(setup, w, Flat(logs[..n - 1]), raw);
      IndexedHolds(setup, here, raw);
    } else {
      LastServedHolds(setup, w, turns, logs, raw, s, n - 1);
      var served := Served(w.lists.input, turns, n - 1);
      if served.Some? {
        IndexedKeeps(setup, here, raw, served.value);
      }
    }
  }

  // Two versions with different hashes cannot both be what the store holds.
  lemma {:induction false} OneVersion(setup: Setup, collections: Collections, a: string, b: string)
    requires Trusted(setup.work, setup.sink) && SamePlace(setup.work, a, b)
    requires setup.work.lookup(a).document.contentHash != setup.work.lookup(b).document.contentHash
    requires HoldsVersion(setup, collections, a)
    ensures !HoldsVersion(setup, collections, b)
  {
    hide IdOf;
    var name, da, db := CollectionOf(setup.work, a), setup.work.lookup(a).document, setup.work.lookup(b).document;
    var ca, cb := setup.work.prepare(da), setup.work.prepare(db);
    if HoldsVersion(setup, collections, b) {
      assert HasPoint(setup.sink, name, collections[name].points, db, cb[0]);
      var id := IdOf(setup.sink, name, db, cb[0]);
      var i := NewIdOf(setup.sink, name, da, ca, |ca|, id);
      IdsDiffer(setup.sink, name, da, ca[i], db, cb[0]);
    }
  }

  lemma {:induction false} IdsDiffer(sink: Sink, name: string, a: Document, x: Chunk, b: Document, y: Chunk)
    requires Injective(sink.uuid) && a.contentHash != b.contentHash
    ensures IdOf(sink, name, a, x) != IdOf(sink, name, b, y)
  {
    PointIdsAreUnique(sink, name, a.documentId, a.contentHash, x.index, b.documentId, b.contentHash, y.index);
  }

  // Two versions of one document whose messages come once each.
  ghost predicate Versions(setup: Setup, w: World, turns: seq<Turn>, older: string, newer: string) {
    && SamePlace(setup.work, older, newer)
    && setup.work.lookup(older).document.contentHash != setup.work.lookup(newer).document.contentHash
    && CanIndex(setup, w.collections, older) && CanIndex(setup, w.collections, newer)
    && Once(w.lists.input, turns, older) && Once(w.lists.input, turns, newer)
    && forall t :: 0 <= t < |turns| ==>
         var served := Served(w.lists.input, turns, t);
         served.Some? && SamePlace(setup.work, newer, served.value) ==> served.value in {older, newer}
  }

  // With nothing stopped, the index ends on the newer version exactly when the older
  // one was taken before the newer one came; if not, it ends on the older one.
  lemma {:induction false} NewerWinsUnlessBothWait(setup: Setup, w: World, turns: seq<Turn>, logs: seq<seq<Event>>,
                                                   older: string, newer: string, j: nat, i: nat, so: nat, sn: nat)
    requires SmoothRun(setup, w, turns, logs)
    requires Trusted(setup.work, setup.sink) && IndexKept(setup.sink, w.collections)
    requires Versions(setup, w, turns, older, newer)
    requires CameBefore(w.lists.input, turns, older, j, i) && turns[j].arrivals[i] == newer
    requires so < |turns| && Served(w.lists.input, turns, so) == Some(older)
    requires sn < |turns| && Served(w.lists.input, turns, sn) == Some(newer)
    ensures var store := AfterEvents(setup, w, Flat(logs)).collections;
            && (HoldsVersion(setup, store, newer) <==> so < j)
            && (HoldsVersion(setup, store, older) <==> so >= j)
  {
    hide Trusted, IndexKept, AfterEvents, HoldsVersion, SmoothRun, Needs, CanIndex, Once, Served, CameBefore;
    SmoothRunsOut(setup, w, turns, logs);
    assert logs[..|logs|] == logs;
    var input, store := w.lists.input, WorldAt(setup, w, logs, |logs|).collections;
    NewerServedLast(input, turns, older, newer, j, i, so, sn);
    var last, other, s, first := if so < sn then newer else older, if so < sn then older else newer,
                                 if so < sn then sn else so, if so < sn then so else sn;
    forall t | s < t < |turns| && Served(input, turns, t).Some?
      ensures !SamePlace(setup.work, last, Served(input, turns, t).value)
    {
      ServedOnce(input, turns, last, s, t);
      ServedOnce(input, turns, other, first, t);
    }
    LastServedHolds(setup, w, turns, logs, last, s, |turns|);
    OneVersion(setup, store, last, other);
  }

  function Plain(arrivals: seq<string>): Turn {
    Turn(arrivals, false, Works, ItemFate(_ => Clean, Works, Works))
  }

  // Two versions that come together, the older one first, and two turns with nothing
  // stopped: the index ends on the older version.
  method EndsOnOlder(consumer: Consumer, older: string, newer: string) returns (ghost logs: seq<seq<Event>>)
    requires consumer.Valid() && consumer.lists.input == [] && !consumer.stopping
    requires SamePlace(consumer.work, older, newer)
    requires consumer.work.lookup(older).document.contentHash != consumer.work.lookup(newer).document.contentHash
    requires CanIndex(consumer.Config(), consumer.qdrant.collections, older)
    requires CanIndex(consumer.Config(), consumer.qdrant.collections, newer)
    modifies consumer, consumer.qdrant
    ensures HoldsVersion(consumer.Config(), consumer.qdrant.collections, older)
    ensures !HoldsVersion(consumer.Config(), consumer.qdrant.collections, newer)
  {
    hide Balanced, AllSettled, Trusted, IndexKept, Needs, CanIndex, Running, HoldsVersion, Accounted, AfterEvents;
    hide RunDid, SamePlace;
    ghost var setup, w := consumer.Config(), consumer.Now();
    var turns := [Plain([older, newer]), Plain([])];
    var end;
    end, logs := consumer.Run(turns);
    OlderStays(setup, w, turns, logs, older, newer);
  }

  lemma {:induction false} OlderStays(setup: Setup, w: World, turns: seq<Turn>, logs: seq<seq<Event>>, older: string,
                                      newer: string)
    requires turns == [Plain([older, newer]), Plain([])] && w.lists.input == []
    requires RunDid(setup, w, false, turns, logs)
    requires Trusted(setup.work, setup.sink) && IndexKept(setup.sink, w.collections)
    requires SamePlace(setup.work, older, newer)
    requires setup.work.lookup(older).document.contentHash != setup.work.lookup(newer).document.contentHash
    requires CanIndex(setup, w.collections, older) && CanIndex(setup, w.collections, newer)
    ensures var store := AfterEvents(setup, w, Flat(logs)).collections;
            HoldsVersion(setup, store, older) && !HoldsVersion(setup, store, newer)
  {
    hide Trusted, IndexKept, CanIndex, Running, RunDid, AfterEvents, Flat, HoldsVersion;
    BothWait(turns, older, newer);
    NewerWinsUnlessBothWait(setup, w, turns, logs, older, newer, 0, 1, 1, 0);
  }

  lemma {:induction false} BothWait(turns: seq<Turn>, older: string, newer: string)
    requires turns == [Plain([older, newer]), Plain([])] && older != newer
    ensures Served([], turns, 0) == Some(newer) && Served([], turns, 1) == Some(older)
    ensures Once([], turns, older) && Once([], turns, newer) && CameBefore([], turns, older, 0, 1)
  {
    OneOfTwo(turns, older, newer, older);
    OneOfTwo(turns, older, newer, newer);
    NothingTaken([], turns);
    TakesLast([], turns, 0);
    TakesLast([], turns, 1);
    hide Left, Served, TimesCome, Once;
    assert Waiting([], turns, 0) == [older, newer];
    assert Waiting([], turns, 1) == [older];
    assert turns[0].arrivals[..1] == [older];
  }

  lemma {:induction false} OneOfTwo(turns: seq<Turn>, older: string, newer: string, raw: string)
    requires turns == [Plain([older, newer]), Plain([])] && older != newer && raw in {older, newer}
    ensures Once([], turns, raw)
  {
    ComeStep([], turns, raw, 0);
    ComeStep([], turns, raw, 1);
    assert TimesCome([], turns, raw, 0) == 0;
    hide TimesCome;
  }
}
