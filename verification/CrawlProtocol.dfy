// The wake-up and termination protocol of the crawl frontier, over every
// interleaving: what every step keeps, and that some goroutine can always move.
module CrawlProtocol {
  import opened Frontier
  import opened Tally
  import opened CrawlModel

  // A worker that popped a page and has not called `done` for it.
  function Holds(w: Worker): nat {
    if w.AtPop? || w.Asleep? || w.Signalled? || w.Returned? then 0 else 1
  }

  function Woken(w: Worker): nat {
    if w.Signalled? then 1 else 0
  }

  predicate Leaves(w: Worker) {
    w.Returned? || (w.Finishing? && w.leaving)
  }

  ghost predicate Protocol(job: Job, s: State) {
    && |s.workers| == job.workers
    && (s.phase.Seeding? ==>
          s.frontier == EmptyQueue() && !s.status.accepted && s.log.pushed == []
          && forall i :: 0 <= i < |s.workers| ==> s.workers[i].AtPop?)
    // The termination detector counts what is queued and what is in hand.
    && s.frontier.outstanding == |s.frontier.items| + Sum(Holds, s.workers)
    && (!s.phase.Seeding? && !s.frontier.closed ==> s.frontier.outstanding > 0)
    // The queue closes only when the count is zero, unless the context closed it, or
    // the seed was pushed but not stored.
    && (s.frontier.closed && !s.status.closerDone && (s.status.accepted || s.log.pushed == []) ==>
          s.frontier.outstanding == 0)
    && (!s.phase.Seeding? && !s.status.accepted ==> s.frontier.closed)
    && (!s.status.accepted && !s.status.faulted ==> s.log.pushed == [])
    && (s.status.closerDone ==> s.frontier.closed && s.status.cancelled)
    // No lost wake-up.
    && (s.frontier.closed ==> !SomeAsleep(s.workers))
    && (SomeAsleep(s.workers) ==> |s.frontier.items| <= Sum(Woken, s.workers))
    // Nobody leaves early.
    && (forall i :: 0 <= i < |s.workers| && Leaves(s.workers[i]) ==> s.frontier.closed || s.status.cancelled)
    && (s.phase.Draining? || s.phase.Finished? ==> AllReturned(s.workers))
    && (s.phase.Finished? ==> s.channel == [] && s.writer.batch == [])
  }

  lemma {:induction false} StartProtocol(job: Job)
    ensures Protocol(job, Start(job))
  {
    SumZero(Holds, Start(job).workers);
  }

  lemma {:induction false} Moved(s: State, i: nat, w: Worker)
    requires i < |s.workers|
    ensures Sum(Holds, s.workers[i := w]) + Holds(s.workers[i]) == Sum(Holds, s.workers) + Holds(w)
    ensures Sum(Woken, s.workers[i := w]) + Woken(s.workers[i]) == Sum(Woken, s.workers) + Woken(w)
    ensures Holds(s.workers[i]) <= Sum(Holds, s.workers)
    ensures SomeAsleep(s.workers[i := w]) ==> w.Asleep? || SomeAsleep(s.workers)
    ensures SomeAsleep(s.workers) && !s.workers[i].Asleep? ==> SomeAsleep(s.workers[i := w])
  {
    SumUpdate(Holds, s.workers, i, w);
    SumUpdate(Woken, s.workers, i, w);
    SumCovers(Holds, s.workers, i);
    if SomeAsleep(s.workers) && !s.workers[i].Asleep? {
      var j :| 0 <= j < |s.workers| && s.workers[j].Asleep?;
      assert s.workers[i := w][j].Asleep?;
    }
  }

  lemma {:induction false} WokenAll(ws: seq<Worker>)
    ensures Sum(Holds, WakeAll(ws)) == Sum(Holds, ws)
    ensures !SomeAsleep(WakeAll(ws))
    ensures AllReturned(ws) ==> AllReturned(WakeAll(ws))
  {
    SumSame(Holds, WakeAll(ws), ws);
  }

  lemma {:induction false} PushKeepsProtocol(job: Job, s: State, i: nat, u: Url, sleeper: nat)
    requires Protocol(job, s) && Enabled(job, s, PushOne(i, u, sleeper))
    ensures Protocol(job, PushEffect(s, i, u, sleeper))
  {
    var w := s.workers[i];
    if s.frontier.closed {
      Moved(s, i, Pushing(w.page, w.todo - {u}, w.added));
    } else {
      var next := Pushing(w.page, w.todo - {u}, w.added + {u});
      Moved(s, i, next);
      var moved := Put(s, i, next);
      if SomeAsleep(s.workers) {
        Moved(moved, sleeper, Signalled);
      }
    }
  }

  lemma {:induction false} DoneKeepsProtocol(job: Job, s: State, i: nat)
    requires Protocol(job, s) && Enabled(job, s, PageDone(i))
    ensures Protocol(job, DoneEffect(s, i))
  {
    var next := if s.workers[i].leaving then Returned else AtPop;
    Moved(s, i, next);
    WokenAll(Put(s, i, next).workers);
  }

  lemma {:induction false} PopKeepsProtocol(job: Job, s: State, i: nat)
    requires Protocol(job, s) && Enabled(job, s, TryPop(i))
    ensures Protocol(job, PopEffect(s, i))
  {
    match PopDecision(s.frontier)
    case Took(page) => Moved(s, i, Fetching(page));
    case Drained => Moved(s, i, Returned);
    case MustWait => Moved(s, i, Asleep);
  }

  lemma {:induction false} SeedKeepsProtocol(job: Job, s: State, outcome: SeedOutcome)
    requires Protocol(job, s) && Enabled(job, s, Seed(outcome))
    ensures Protocol(job, SeedEffect(job, s, outcome))
  {
    SumZero(Holds, s.workers);
    match outcome
    case SeedAccepted =>
    case SeedKnown =>
    case SeedClaimFails(applied) =>
    case SeedStoreFails =>
  }

  // Steps that touch neither a worker nor the frontier.
  lemma {:induction false} AsideKeepsProtocol(job: Job, s: State, t: State)
    requires Protocol(job, s) && t.workers == s.workers && t.frontier == s.frontier
             && t.status.accepted == s.status.accepted && t.log.pushed == s.log.pushed
    requires t.status.closerDone == s.status.closerDone && (s.status.cancelled ==> t.status.cancelled)
             && (s.status.faulted ==> t.status.faulted)
    requires t.phase.Draining? || t.phase.Finished? ==> AllReturned(s.workers)
    requires t.phase.Seeding? <==> s.phase.Seeding?
    requires t.phase.Finished? ==> t.channel == [] && t.writer.batch == []
    ensures Protocol(job, t)
  {
    assert forall i :: 0 <= i < |s.workers| ==> t.workers[i] == s.workers[i];
  }

  lemma {:induction false} CloserKeepsProtocol(job: Job, s: State)
    requires Protocol(job, s) && Enabled(job, s, CloseOnCancel)
    ensures Protocol(job, Apply(job, s, CloseOnCancel))
  {
    WokenAll(s.workers);
  }

  // While it works, a worker keeps its page and leaves the protocol's state alone.
  lemma {:induction false} WorkHoldsPage(job: Job, s: State, w: Worker, act: Act)
    requires CanAct(job, s, w, act)
    ensures var v, t := WorkerAfter(job, s, w, act), SharedAfter(job, s, w, act);
            && Holds(w) == Holds(v) == 1
            && (v.Finishing? && v.leaving ==> s.status.cancelled)
            && t.frontier == s.frontier && t.phase == s.phase && t.log.pushed == s.log.pushed
            && t.status.cancelled == s.status.cancelled && t.status.accepted == s.status.accepted
            && t.status.closerDone == s.status.closerDone
            && (s.status.faulted ==> t.status.faulted)
  {
  }

  lemma {:induction false} MoveKeepsProtocol(job: Job, s: State, i: nat, w: Worker, t: State)
    requires Protocol(job, s) && Runs(s, i) && Holds(s.workers[i]) == Holds(w) == 1
    requires w.Finishing? && w.leaving ==> s.status.cancelled
    requires t.workers == s.workers[i := w] && t.frontier == s.frontier && t.phase == s.phase
             && t.log.pushed == s.log.pushed
    requires t.status.cancelled == s.status.cancelled && t.status.accepted == s.status.accepted
             && t.status.closerDone == s.status.closerDone
    requires s.status.faulted ==> t.status.faulted
    ensures Protocol(job, t)
  {
    Moved(s, i, w);
  }

  lemma {:induction false} WorkKeepsProtocol(job: Job, s: State, i: nat, act: Act, t: State)
    requires Protocol(job, s) && Takes(job, s, Work(i, act), t)
    ensures Protocol(job, t)
  {
    WorkHoldsPage(job, s, s.workers[i], act);
    MoveKeepsProtocol(job, s, i, WorkerAfter(job, s, s.workers[i], act), t);
  }

  // Every step of every goroutine keeps the protocol.
  lemma {:induction false} StepKeepsProtocol(job: Job, s: State, step: Step, t: State)
    requires Protocol(job, s) && Takes(job, s, step, t)
    ensures Protocol(job, t)
  {
    match step
    case Seed(outcome) => SeedKeepsProtocol(job, s, outcome);
    case TryPop(i) => PopKeepsProtocol(job, s, i);
    case Work(i, act) => WorkKeepsProtocol(job, s, i, act, t);
    case PushOne(i, u, sleeper) => PushKeepsProtocol(job, s, i, u, sleeper);
    case PageDone(i) => DoneKeepsProtocol(job, s, i);
    case CloseOnCancel => CloserKeepsProtocol(job, s);
    case Receive(ok) => AsideKeepsProtocol(job, s, t);
    case CloseChannel => AsideKeepsProtocol(job, s, t);
    case FlushRest(ok) => AsideKeepsProtocol(job, s, t);
    case Cancel => AsideKeepsProtocol(job, s, t);
    hide Protocol;
  }

  lemma {:induction false} RunKeepsProtocol(job: Job, run: nat -> State, k: nat)
    requires IsRun(job, run)
    ensures Protocol(job, run(k))
  {
    if k == 0 {
      StartProtocol(job);
    } else {
      RunKeepsProtocol(job, run, k - 1);
      var s, t := run(k - 1), run(k - 1 + 1);
      assert Follows(job, s, t);
      if exists step: Step :: Takes(job, s, step, t) {
        var step: Step :| Takes(job, s, step, t);
        StepKeepsProtocol(job, s, step, t);
      }
    }
  }

  // No lost wake-up: if somebody sleeps while something waits, somebody else has
  // been woken for it and has not run yet; and the workers never all sleep.
  lemma {:induction false} NoLostWakeup(job: Job, s: State)
    requires Protocol(job, s) && SomeAsleep(s.workers)
    ensures !s.frontier.closed
    ensures |s.frontier.items| <= Sum(Woken, s.workers)
    ensures exists i :: 0 <= i < |s.workers| && !s.workers[i].Asleep? && !s.workers[i].Returned?
  {
    if forall i :: 0 <= i < |s.workers| ==> s.workers[i].Asleep? || s.workers[i].Returned? {
      SumZero(Holds, s.workers);
      SumZero(Woken, s.workers);
      assert false;
    }
  }

  // The termination detector is sound and complete: once the crawl has begun, the
  // queue is closed exactly when nothing is queued and nobody holds a page, so
  // nobody is left who could add to it, or when the context closed it, or when the
  // seed was pushed but could not be stored.
  lemma {:induction false} ClosedMeansExhausted(job: Job, s: State)
    requires Protocol(job, s) && !s.phase.Seeding?
    ensures s.frontier.closed <==>
              || (s.frontier.items == [] && forall i :: 0 <= i < |s.workers| ==> Holds(s.workers[i]) == 0)
              || s.status.closerDone
              || (!s.status.accepted && s.log.pushed != [])
  {
    if s.frontier.closed && s.frontier.outstanding == 0 {
      forall i | 0 <= i < |s.workers|
        ensures Holds(s.workers[i]) == 0
      {
        SumCovers(Holds, s.workers, i);
      }
    }
    if forall i :: 0 <= i < |s.workers| ==> Holds(s.workers[i]) == 0 {
      SumZero(Holds, s.workers);
    }
  }

  // Hence the push of a worker, which holds a page, is refused exactly when the
  // context closed the queue or the seed could not be stored; and never in a crawl
  // that was not cancelled, and whose seed was accepted or which had no fault.
  lemma {:induction false} PushNeverRefused(job: Job, s: State, i: nat, u: Url, sleeper: nat, t: State)
    requires Protocol(job, s) && Takes(job, s, PushOne(i, u, sleeper), t)
    ensures s.frontier.closed <==> s.status.closerDone || !s.status.accepted
    ensures !s.status.cancelled && (s.status.accepted || !s.status.faulted) ==> !s.frontier.closed
    ensures if s.frontier.closed then t.log.pushed == s.log.pushed && t.frontier == s.frontier
            else t.log.pushed == s.log.pushed + [u] && t.frontier.items == s.frontier.items + [u]
  {
    ClosedMeansExhausted(job, s);
    assert Holds(s.workers[i]) == 1;
  }

  // The step a worker that is neither asleep nor gone can take now; a sender
  // facing a full channel waits for the writer, which can then receive.
  ghost function NextStep(job: Job, s: State, i: nat): (step: Step)
    requires Protocol(job, s) && Runs(s, i)
    requires !s.workers[i].Asleep? && !s.workers[i].Returned?
    ensures Enabled(job, s, step) && !step.Cancel?
  {
    match s.workers[i]
    case AtPop => TryPop(i)
    case Signalled => TryPop(i)
    case Fetching(page) => Work(i, Fetch(false))
    case Parsed(page, links) => Work(i, Enter)
    case Claiming(page, todo, won) => if todo == {} then Work(i, ClaimsEnd) else var u :| u in todo; Work(i, Claim(u))
    case Pushing(page, todo, added) =>
      if todo == {} then Work(i, Store(true))
      else
        var u :| u in todo;
        if SomeAsleep(s.workers) then
          var sleeper :| 0 <= sleeper < |s.workers| && s.workers[sleeper].Asleep?;
          PushOne(i, u, sleeper)
        else PushOne(i, u, 0)
    case Sending(page, todo, total) =>
      if todo == {} then Work(i, SendsEnd)
      else if |s.channel| < Capacity(job) then var u :| u in todo; Work(i, Send(u))
      else Receive(true)
    case Finishing(page, leaving) => PageDone(i)
  }

  // No deadlock: until the crawl has finished, some goroutine can move.
  lemma {:induction false} NeverStuck(job: Job, s: State)
    requires Protocol(job, s) && !s.phase.Finished?
    ensures !Stuck(job, s)
  {
    if s.phase.Seeding? {
      var outcome := if job.seed in s.visited then SeedKnown else SeedAccepted;
      assert Enabled(job, s, Seed(outcome));
    } else if s.phase.Draining? {
      var step := if s.channel == [] then FlushRest(true) else Receive(true);
      assert Enabled(job, s, step);
    } else if AllReturned(s.workers) {
      assert Enabled(job, s, CloseChannel);
    } else {
      if SomeAsleep(s.workers) {
        NoLostWakeup(job, s);
      }
      var i :| 0 <= i < |s.workers| && !s.workers[i].Asleep? && !s.workers[i].Returned?;
      var step := NextStep(job, s, i);
    }
  }
}
