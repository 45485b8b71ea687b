// What becomes of every URL, over every interleaving: claimed, pushed, fetched
// and sent on exactly once each.  All of it is conservation of multisets.
module CrawlLedger {
  import opened OutputWriter
  import opened Tally
  import opened CrawlModel
  import opened CrawlProtocol

  // Claimed in Redis and not offered to the frontier yet.
  function Won(w: Worker): multiset<Url> {
    match w
    case Claiming(_, _, won) => multiset(won)
    case Pushing(_, todo, _) => multiset(todo)
    case _ => multiset{}
  }

  function InFetch(w: Worker): multiset<Url> {
    if w.Fetching? then multiset{w.page} else multiset{}
  }

  // Pushed and not sent to the writer yet.
  function Unsent(w: Worker): multiset<Url> {
    match w
    case Pushing(_, _, added) => multiset(added)
    case Sending(_, todo, _) => multiset(todo)
    case _ => multiset{}
  }

  // Sent to the writer and not counted in `links` yet.
  function Uncounted(w: Worker): nat {
    if w.Sending? && |w.todo| <= w.total then w.total - |w.todo| else 0
  }

  // Everything the writer has been given and has not lost, in order.
  function Stream(s: State): seq<Url> {
    StreamOf(s.writer, s.channel)
  }

  function StreamOf(w: Writer<Url>, channel: seq<Url>): seq<Url> {
    Delivered(w.calls) + w.batch + channel
  }

  // A URL enters the visited set together with exactly one claim on it, and a
  // claim ends as one push or, in a disturbed run, as a loss.
  ghost predicate Claims(job: Job, s: State) {
    && job.known <= s.visited
    && (s.phase.Seeding? ==> s.visited == job.known && s.log.pushed == [])
    && multiset(s.log.pushed) + Pool(Won, s.workers) + s.log.lostClaims == multiset(s.visited - job.known)
    && (Undisturbed(s) ==> s.log.lostClaims == multiset{})
  }

  // A push is popped once and in order, and a popped page is fetched once.
  ghost predicate Fetches(s: State) {
    && s.log.pushed == s.log.popped + s.frontier.items
    && multiset(s.log.fetched) + Pool(InFetch, s.workers) == multiset(s.log.popped)
    && s.stats.pages + s.stats.errors == |s.log.fetched|
  }

  // A push becomes one record for the writer; only the seed's never does.
  ghost predicate Records(job: Job, s: State) {
    && (s.phase.Seeding? ==> s.log.pushed == [])
    && multiset(Stream(s)) + Pool(Unsent, s.workers) + s.log.lostRecords == multiset(s.log.pushed)
    && (Undisturbed(s) ==> s.log.lostRecords == if s.status.accepted then multiset{job.seed} else multiset{})
  }

  ghost predicate LinkCount(s: State) {
    && (forall i :: 0 <= i < |s.workers| && s.workers[i].Sending? ==> |s.workers[i].todo| <= s.workers[i].total)
    && (Undisturbed(s) ==> s.stats.links + Sum(Uncounted, s.workers) == |Stream(s)|)
  }

  ghost predicate Ledger(job: Job, s: State) {
    Claims(job, s) && Fetches(s) && Records(job, s) && LinkCount(s)
  }

  lemma {:induction false} StartLedger(job: Job)
    ensures Ledger(job, Start(job))
  {
    var ws := Start(job).workers;
    PoolEmpty(Won, ws);
    PoolEmpty(InFetch, ws);
    PoolEmpty(Unsent, ws);
    SumZero(Uncounted, ws);
  }

  // Books that balance go on balancing when one worker's share of the pool is
  // exchanged against what is kept and what is to be accounted for.
  lemma {:induction false} Balance(kept: multiset<Url>, pool: multiset<Url>, total: multiset<Url>,
                kept': multiset<Url>, pool': multiset<Url>, total': multiset<Url>,
                was: multiset<Url>, now: multiset<Url>)
    requires kept + pool == total
    requires pool' + was == pool + now
    requires kept' + now + total == kept + was + total'
    ensures kept' + pool' == total'
  {
    forall x: Url
      ensures (kept' + pool')[x] == total'[x]
    {
      assert (kept + pool)[x] == total[x];
      assert (pool' + was)[x] == (pool + now)[x];
      assert (kept' + now + total)[x] == (kept + was + total')[x];
    }
  }

  ghost function Claimed(job: Job, s: State): multiset<Url> {
    multiset(s.visited - job.known)
  }

  // One act of a worker: what it leaves alone.
  lemma {:induction false} ActFrame(job: Job, s: State, w: Worker, act: Act)
    ensures var t := SharedAfter(job, s, w, act);
            && t.phase == s.phase && t.frontier == s.frontier && s.visited <= t.visited
            && t.log.pushed == s.log.pushed && t.log.popped == s.log.popped
            && t.status == s.status.(faulted := t.status.faulted) && (s.status.faulted ==> t.status.faulted)
  {
  }

  // One act of a worker: what it does to each of the four accounts.
  lemma {:induction false} ActClaims(job: Job, s: State, w: Worker, act: Act)
    requires CanAct(job, s, w, act) && job.known <= s.visited
    requires w.Claiming? ==> w.won <= s.visited
    ensures var v, t := WorkerAfter(job, s, w, act), SharedAfter(job, s, w, act);
            && t.log.lostClaims + Won(v) + Claimed(job, s) == s.log.lostClaims + Won(w) + Claimed(job, t)
            && (Undisturbed(t) ==> t.log.lostClaims == s.log.lostClaims)
  {
    if act.Claim? && act.u !in s.visited {
      ActWins(job, s, w, act.u);
    } else {
      assert SharedAfter(job, s, w, act).visited == s.visited;
      ActDropsClaims(job, s, w, act);
    }
  }

  lemma {:induction false} ActWins(job: Job, s: State, w: Worker, u: Url)
    requires CanAct(job, s, w, Claim(u)) && job.known <= s.visited && w.won <= s.visited && u !in s.visited
    ensures var v, t := WorkerAfter(job, s, w, Claim(u)), SharedAfter(job, s, w, Claim(u));
            && t.log.lostClaims + Won(v) + Claimed(job, s) == s.log.lostClaims + Won(w) + Claimed(job, t)
            && t.log.lostClaims == s.log.lostClaims
  {
    assert (s.visited + {u}) - job.known == (s.visited - job.known) + {u};
    assert multiset(w.won + {u}) == multiset(w.won) + multiset{u};
    assert multiset((s.visited - job.known) + {u}) == Claimed(job, s) + multiset{u};
  }

  lemma {:induction false} ActDropsClaims(job: Job, s: State, w: Worker, act: Act)
    requires CanAct(job, s, w, act) && (act.Claim? ==> act.u in s.visited)
    ensures var v, t := WorkerAfter(job, s, w, act), SharedAfter(job, s, w, act);
            && t.log.lostClaims + Won(v) == s.log.lostClaims + Won(w)
            && (Undisturbed(t) ==> t.log.lostClaims == s.log.lostClaims)
  {
    var v, t := WorkerAfter(job, s, w, act), SharedAfter(job, s, w, act);
    if !act.ClaimsFail? {
      assert t.log.lostClaims == s.log.lostClaims && Won(v) == Won(w);
    }
  }

  lemma {:induction false} NotFetched(job: Job, s: State, w: Worker, act: Act)
    requires CanAct(job, s, w, act) && !act.Fetch?
    ensures var v, t := WorkerAfter(job, s, w, act), SharedAfter(job, s, w, act);
            && t.log.fetched == s.log.fetched && InFetch(v) == InFetch(w) == multiset{}
            && t.stats.pages == s.stats.pages && t.stats.errors == s.stats.errors
  {
    hide Links, FetchFails;
  }

  lemma {:induction false} ActFetches(job: Job, s: State, w: Worker, act: Act)
    requires CanAct(job, s, w, act)
    ensures var v, t := WorkerAfter(job, s, w, act), SharedAfter(job, s, w, act);
            && multiset(t.log.fetched) + InFetch(v) == multiset(s.log.fetched) + InFetch(w)
            && t.stats.pages + t.stats.errors + |s.log.fetched| == s.stats.pages + s.stats.errors + |t.log.fetched|
  {
    hide Links, FetchFails;
    if !act.Fetch? {
      NotFetched(job, s, w, act);
    }
  }

  lemma {:induction false} ActRecords(job: Job, s: State, w: Worker, act: Act)
    requires CanAct(job, s, w, act)
    ensures var v, t := WorkerAfter(job, s, w, act), SharedAfter(job, s, w, act);
            multiset(Stream(t)) + (t.log.lostRecords + Unsent(v)) ==
            multiset(Stream(s)) + (s.log.lostRecords + Unsent(w))
  {
    if act.Send? {
      ActSends(job, s, w, act.u);
    } else {
      assert Stream(SharedAfter(job, s, w, act)) == Stream(s);
      ActDropsRecords(job, s, w, act);
    }
  }

  lemma {:induction false} ActSends(job: Job, s: State, w: Worker, u: Url)
    requires CanAct(job, s, w, Send(u))
    ensures var v, t := WorkerAfter(job, s, w, Send(u)), SharedAfter(job, s, w, Send(u));
            multiset(Stream(t)) + (t.log.lostRecords + Unsent(v)) ==
            multiset(Stream(s)) + (s.log.lostRecords + Unsent(w))
  {
    var v, t := WorkerAfter(job, s, w, Send(u)), SharedAfter(job, s, w, Send(u));
    assert v == Sending(w.page, w.todo - {u}, w.total) && t == s.(channel := s.channel + [u]);
    hide WorkerAfter, SharedAfter, Delivered;
    assert Stream(t) == Stream(s) + [u];
    hide Stream;
    SendMovesRecord(multiset(Stream(s)), s.log.lostRecords, w.todo, u);
  }

  lemma {:induction false} SendMovesRecord(stream: multiset<Url>, lost: multiset<Url>, todo: set<Url>, u: Url)
    requires u in todo
    ensures (stream + multiset{u}) + (lost + multiset(todo - {u})) == stream + (lost + multiset(todo))
  {
  }

  lemma {:induction false} ActDropsRecords(job: Job, s: State, w: Worker, act: Act)
    requires CanAct(job, s, w, act) && !act.Send?
    ensures var v, t := WorkerAfter(job, s, w, act), SharedAfter(job, s, w, act);
            t.log.lostRecords + Unsent(v) == s.log.lostRecords + Unsent(w)
  {
  }

  lemma {:induction false} ActLosesNoRecord(job: Job, s: State, w: Worker, act: Act)
    requires CanAct(job, s, w, act) && Undisturbed(SharedAfter(job, s, w, act))
    ensures SharedAfter(job, s, w, act).log.lostRecords == s.log.lostRecords
  {
  }

  lemma {:induction false} ActLinks(job: Job, s: State, w: Worker, act: Act)
    requires CanAct(job, s, w, act)
    requires w.Sending? ==> |w.todo| <= w.total
    ensures var v, t := WorkerAfter(job, s, w, act), SharedAfter(job, s, w, act);
            && (v.Sending? ==> |v.todo| <= v.total)
            && (Undisturbed(t) ==>
                  t.stats.links + Uncounted(v) + |Stream(s)| == s.stats.links + Uncounted(w) + |Stream(t)|)
  {
  }

  // A worker that changes from `w` to `v` while the accounts move as above.
  lemma {:induction false} MoveClaims(job: Job, s: State, t: State, i: nat, v: Worker)
    requires Claims(job, s) && i < |s.workers| && t.workers == s.workers[i := v]
    requires !t.phase.Seeding? && s.visited <= t.visited
    requires multiset(t.log.pushed) + (t.log.lostClaims + Won(v) + Claimed(job, s))
          == multiset(s.log.pushed) + (s.log.lostClaims + Won(s.workers[i]) + Claimed(job, t))
    requires Undisturbed(t) ==> Undisturbed(s) && t.log.lostClaims == s.log.lostClaims
    ensures Claims(job, t)
  {
    PoolUpdate(Won, s.workers, i, v);
    assert multiset(t.log.pushed) + (t.log.lostClaims + Won(v) + Claimed(job, s))
        == multiset(t.log.pushed) + t.log.lostClaims + Won(v) + Claimed(job, s);
    Balance(multiset(s.log.pushed) + s.log.lostClaims, Pool(Won, s.workers), Claimed(job, s),
            multiset(t.log.pushed) + t.log.lostClaims, Pool(Won, t.workers), Claimed(job, t), Won(s.workers[i]),
            Won(v));
  }

  lemma {:induction false} MoveFetches(s: State, t: State, i: nat, v: Worker)
    requires Fetches(s) && i < |s.workers| && t.workers == s.workers[i := v]
    requires t.log.pushed == t.log.popped + t.frontier.items
    requires multiset(t.log.fetched) + InFetch(v) + multiset(s.log.popped)
          == multiset(s.log.fetched) + InFetch(s.workers[i]) + multiset(t.log.popped)
    requires t.stats.pages + t.stats.errors + |s.log.fetched| == s.stats.pages + s.stats.errors + |t.log.fetched|
    ensures Fetches(t)
  {
    PoolUpdate(InFetch, s.workers, i, v);
    Balance(multiset(s.log.fetched), Pool(InFetch, s.workers), multiset(s.log.popped),
            multiset(t.log.fetched), Pool(InFetch, t.workers), multiset(t.log.popped), InFetch(s.workers[i]),
            InFetch(v));
  }

  lemma {:induction false} MoveRecords(job: Job, s: State, t: State, i: nat, v: Worker)
    requires Records(job, s) && i < |s.workers| && t.workers == s.workers[i := v]
    requires !t.phase.Seeding? && t.status.accepted == s.status.accepted
    requires t.log.pushed == s.log.pushed
    requires multiset(Stream(t)) + (t.log.lostRecords + Unsent(v))
          == multiset(Stream(s)) + (s.log.lostRecords + Unsent(s.workers[i]))
    requires Undisturbed(t) ==> Undisturbed(s) && t.log.lostRecords == s.log.lostRecords
    ensures Records(job, t)
  {
    PoolUpdate(Unsent, s.workers, i, v);
    assert multiset(Stream(t)) + (t.log.lostRecords + Unsent(v)) + multiset(s.log.pushed)
        == multiset(Stream(t)) + t.log.lostRecords + Unsent(v) + multiset(s.log.pushed);
    Balance(multiset(Stream(s)) + s.log.lostRecords, Pool(Unsent, s.workers), multiset(s.log.pushed),
            multiset(Stream(t)) + t.log.lostRecords, Pool(Unsent, t.workers), multiset(t.log.pushed),
            Unsent(s.workers[i]), Unsent(v));
  }

  lemma {:induction false} MoveLinkCount(s: State, t: State, i: nat, v: Worker)
    requires LinkCount(s) && i < |s.workers| && t.workers == s.workers[i := v]
    requires v.Sending? ==> |v.todo| <= v.total
    requires Undisturbed(t) ==> Undisturbed(s)
    requires Undisturbed(t) ==>
      t.stats.links + Uncounted(v) + |Stream(s)| == s.stats.links + Uncounted(s.workers[i]) + |Stream(t)|
    ensures LinkCount(t)
  {
    SumUpdate(Uncounted, s.workers, i, v);
  }

  // What a worker has won is visited, outside the known set, and not pushed yet.
  lemma {:induction false} WonIsFresh(job: Job, s: State, i: nat, u: Url)
    requires Claims(job, s) && i < |s.workers| && u in Won(s.workers[i])
    ensures u in s.visited && u !in job.known && u !in s.log.pushed
  {
    PoolCovers(Won, s.workers, i);
    assert Claimed(job, s)[u] == multiset(s.log.pushed)[u] + Pool(Won, s.workers)[u] + s.log.lostClaims[u];
  }

  lemma {:induction false} WorkKeepsClaims(job: Job, s: State, i: nat, act: Act)
    requires Claims(job, s) && Runs(s, i) && CanAct(job, s, s.workers[i], act)
    ensures Claims(job, WorkEffect(job, s, i, act))
  {
    var w := s.workers[i];
    var v, t := WorkerAfter(job, s, w, act), WorkEffect(job, s, i, act);
    forall u | w.Claiming? && u in w.won
      ensures u in s.visited
    {
      WonIsFresh(job, s, i, u);
    }
    ActFrame(job, s, w, act);
    ActClaims(job, s, w, act);
    MoveClaims(job, s, t, i, v);
  }

  lemma {:induction false} WorkKeepsFetches(job: Job, s: State, i: nat, act: Act)
    requires Fetches(s) && Runs(s, i) && CanAct(job, s, s.workers[i], act)
    ensures Fetches(WorkEffect(job, s, i, act))
  {
    ActFrame(job, s, s.workers[i], act);
    ActFetches(job, s, s.workers[i], act);
    MoveFetches(s, WorkEffect(job, s, i, act), i, WorkerAfter(job, s, s.workers[i], act));
  }

  lemma {:induction false} WorkKeepsRecords(job: Job, s: State, i: nat, act: Act)
    requires Records(job, s) && LinkCount(s) && Runs(s, i) && CanAct(job, s, s.workers[i], act)
    ensures Records(job, WorkEffect(job, s, i, act)) && LinkCount(WorkEffect(job, s, i, act))
  {
    var w := s.workers[i];
    var v, t := WorkerAfter(job, s, w, act), WorkEffect(job, s, i, act);
    ActFrame(job, s, w, act);
    ActRecords(job, s, w, act);
    if Undisturbed(t) {
      ActLosesNoRecord(job, s, w, act);
    }
    MoveRecords(job, s, t, i, v);
    ActLinks(job, s, w, act);
    MoveLinkCount(s, t, i, v);
  }

  // Steps that do not touch an account keep it.
  lemma {:induction false} SameClaims(job: Job, s: State, t: State)
    requires Claims(job, s) && t.visited == s.visited && (t.phase.Seeding? ==> s.phase.Seeding?)
    requires t.log.pushed == s.log.pushed && t.log.lostClaims == s.log.lostClaims
    requires Pool(Won, t.workers) == Pool(Won, s.workers)
    requires Undisturbed(t) ==> Undisturbed(s)
    ensures Claims(job, t)
  {
  }

  lemma {:induction false} SameFetches(s: State, t: State)
    requires Fetches(s) && t.log.fetched == s.log.fetched
    requires t.log.pushed == t.log.popped + t.frontier.items
    requires multiset(t.log.popped) + Pool(InFetch, s.workers) == multiset(s.log.popped) + Pool(InFetch, t.workers)
    requires t.stats.pages == s.stats.pages && t.stats.errors == s.stats.errors
    ensures Fetches(t)
  {
    var before, after := multiset(s.log.popped), multiset(t.log.popped);
    assert after + Pool(InFetch, s.workers) == Pool(InFetch, s.workers) + after;
    assert before + Pool(InFetch, t.workers) == Pool(InFetch, t.workers) + before;
    Balance(multiset(s.log.fetched), Pool(InFetch, s.workers), before,
            multiset(t.log.fetched), Pool(InFetch, t.workers), after, before, after);
  }

  lemma {:induction false} SameRecords(job: Job, s: State, t: State)
    requires Records(job, s) && (t.phase.Seeding? ==> s.phase.Seeding?)
    requires t.log.pushed == s.log.pushed && t.status.accepted == s.status.accepted
    requires multiset(Stream(t)) + t.log.lostRecords == multiset(Stream(s)) + s.log.lostRecords
    requires Pool(Unsent, t.workers) == Pool(Unsent, s.workers)
    requires Undisturbed(t) ==> Undisturbed(s) && t.log.lostRecords == s.log.lostRecords
    ensures Records(job, t)
  {
    assert (multiset(Stream(t)) + t.log.lostRecords) + Pool(Unsent, t.workers)
        == (multiset(Stream(s)) + s.log.lostRecords) + Pool(Unsent, s.workers);
    assert (multiset(Stream(s)) + s.log.lostRecords) + Pool(Unsent, s.workers)
        == multiset(Stream(s)) + Pool(Unsent, s.workers) + s.log.lostRecords;
  }

  lemma {:induction false} SameLinkCount(s: State, t: State)
    requires LinkCount(s) && t.stats.links == s.stats.links
    requires forall i :: 0 <= i < |t.workers| && t.workers[i].Sending? ==>
               i < |s.workers| && t.workers[i] == s.workers[i]
    requires Sum(Uncounted, t.workers) == Sum(Uncounted, s.workers)
    requires Undisturbed(t) ==> Undisturbed(s) && |Stream(t)| == |Stream(s)|
    ensures LinkCount(t)
  {
  }

  // Workers that own nothing before and after are invisible to the books.
  predicate OwnsNothing(w: Worker) {
    !w.Fetching? && !w.Claiming? && !w.Pushing? && !w.Sending?
  }

  lemma {:induction false} IdleChange(ws: seq<Worker>, vs: seq<Worker>)
    requires |ws| == |vs|
    requires forall i :: 0 <= i < |ws| ==> ws[i] == vs[i] || (OwnsNothing(ws[i]) && OwnsNothing(vs[i]))
    ensures Pool(Won, ws) == Pool(Won, vs) && Pool(InFetch, ws) == Pool(InFetch, vs)
            && Pool(Unsent, ws) == Pool(Unsent, vs)
    ensures Sum(Uncounted, ws) == Sum(Uncounted, vs)
    ensures forall i :: 0 <= i < |vs| && vs[i].Sending? ==> vs[i] == ws[i]
  {
    PoolSame(Won, ws, vs);
    PoolSame(InFetch, ws, vs);
    PoolSame(Unsent, ws, vs);
    SumSame(Uncounted, ws, vs);
  }

  // A step of the queue or of a goroutine that is not a worker: the books only
  // see workers that own nothing, and perhaps the end of the run.
  lemma {:induction false} AsideKeepsLedger(job: Job, s: State, t: State)
    requires Ledger(job, s) && |t.workers| == |s.workers|
    requires forall i :: 0 <= i < |s.workers| ==>
      s.workers[i] == t.workers[i] || (OwnsNothing(s.workers[i]) && OwnsNothing(t.workers[i]))
    requires t.visited == s.visited && t.stats == s.stats && t.channel == s.channel && t.writer == s.writer
             && t.log == s.log
    requires t.frontier.items == s.frontier.items && t.status.accepted == s.status.accepted
    requires t.phase.Seeding? ==> s.phase.Seeding?
    requires Undisturbed(t) ==> Undisturbed(s)
    ensures Ledger(job, t)
  {
    IdleChange(s.workers, t.workers);
    SameClaims(job, s, t);
    SameFetches(s, t);
    SameRecords(job, s, t);
    SameLinkCount(s, t);
  }

  lemma {:induction false} SeedKeepsClaims(job: Job, s: State, outcome: SeedOutcome, t: State)
    requires Claims(job, s) && Takes(job, s, Seed(outcome), t)
    ensures Claims(job, t)
  {
    hide Pool;
    SeedIsNew(job, s, outcome, t);
    assert s.visited - job.known == {};
    NothingLeft(multiset(s.log.pushed), Pool(Won, s.workers), s.log.lostClaims);
    hide Takes;
    if t.visited == s.visited {
      SameClaims(job, s, t);
    } else {
      assert t.visited - job.known == {job.seed};
    }
  }

  // Seeding claims nothing, or the new seed as one push or one loss.
  lemma {:induction false} SeedIsNew(job: Job, s: State, outcome: SeedOutcome, t: State)
    requires Takes(job, s, Seed(outcome), t)
    ensures s.phase.Seeding? && t.workers == s.workers && (Undisturbed(t) ==> Undisturbed(s)) && !t.phase.Seeding?
    ensures if t.visited == s.visited then t.log.pushed == s.log.pushed && t.log.lostClaims == s.log.lostClaims
            else
              && job.seed !in s.visited && t.visited == s.visited + {job.seed}
              && multiset(t.log.pushed) + t.log.lostClaims
                 == multiset(s.log.pushed) + s.log.lostClaims + multiset{job.seed}
              && (Undisturbed(t) ==> t.log.lostClaims == s.log.lostClaims)
  {
    match outcome
    case SeedAccepted =>
    case SeedKnown =>
    case SeedClaimFails(_) =>
    case SeedStoreFails =>
  }

  lemma {:induction false} SeedKeepsRecords(job: Job, s: State, outcome: SeedOutcome, t: State)
    requires Protocol(job, s) && Records(job, s) && Takes(job, s, Seed(outcome), t)
    ensures Records(job, t)
  {
    assert Stream(t) == Stream(s);
    NothingLeft(multiset(Stream(s)), Pool(Unsent, s.workers), s.log.lostRecords);
    if outcome.SeedAccepted? || outcome.SeedStoreFails? {
      assert t.log.pushed == [job.seed];
    } else {
      SameRecords(job, s, t);
    }
  }

  lemma {:induction false} SeedKeepsFetches(job: Job, s: State, outcome: SeedOutcome, t: State)
    requires Protocol(job, s) && Claims(job, s) && Fetches(s) && LinkCount(s) && Takes(job, s, Seed(outcome), t)
    ensures Fetches(t) && LinkCount(t)
  {
    assert t.workers == s.workers && t.stats == s.stats && Stream(t) == Stream(s);
    assert s.log.pushed == [] && t.log.pushed == t.log.popped + t.frontier.items;
    SameFetches(s, t);
    SameLinkCount(s, t);
  }

  lemma {:induction false} TakeKeepsLedger(job: Job, s: State, i: nat, page: Url, t: State)
    requires Ledger(job, s) && i < |s.workers| && OwnsNothing(s.workers[i])
             && t.workers == s.workers[i := Fetching(page)]
    requires !t.phase.Seeding? && t.status == s.status && t.log == s.log.(popped := s.log.popped + [page])
    requires t.visited == s.visited && t.stats == s.stats && t.channel == s.channel && t.writer == s.writer
    requires s.frontier.items == [page] + t.frontier.items
    ensures Ledger(job, t)
  {
    hide Claims, Fetches, Records, LinkCount, Pool, Sum;
    PoolKept(Won, s.workers, i, Fetching(page));
    SameClaims(job, s, t);
    TakeKeepsFetches(s, i, page, t);
    PoolKept(Unsent, s.workers, i, Fetching(page));
    SameRecords(job, s, t);
    SumUpdate(Uncounted, s.workers, i, Fetching(page));
    SameLinkCount(s, t);
  }

  lemma {:induction false} Shift(a: multiset<Url>, b: multiset<Url>, u: Url)
    ensures (a + multiset{u}) + b == a + (b + multiset{u})
  {
  }

  lemma {:induction false} TakeKeepsFetches(s: State, i: nat, page: Url, t: State)
    requires Fetches(s) && i < |s.workers| && OwnsNothing(s.workers[i]) && t.workers == s.workers[i := Fetching(page)]
    requires t.log == s.log.(popped := s.log.popped + [page]) && t.stats == s.stats
    requires s.frontier.items == [page] + t.frontier.items
    ensures Fetches(t)
  {
    PoolGains(InFetch, s.workers, i, Fetching(page), multiset{page});
    Shift(multiset(s.log.popped), Pool(InFetch, s.workers), page);
    Regroup(s.log.popped, page, t.frontier.items);
    hide Pool;
    assert multiset(t.log.popped) == multiset(s.log.popped) + multiset{page};
    SameFetches(s, t);
  }

  lemma {:induction false} Regroup(a: seq<Url>, u: Url, b: seq<Url>)
    ensures (a + [u]) + b == a + ([u] + b)
  {
  }

  lemma {:induction false} PopKeepsLedger(job: Job, s: State, i: nat, t: State)
    requires Ledger(job, s) && Takes(job, s, TryPop(i), t)
    ensures Ledger(job, t)
  {
    if s.frontier.items == [] {
      AsideKeepsLedger(job, s, t);
    } else {
      TakeKeepsLedger(job, s, i, s.frontier.items[0], t);
    }
  }

  // What a push does to the pusher, and then to the pools.
  function AfterPush(w: Worker, u: Url, ok: bool): Worker {
    if w.Pushing? then Pushing(w.page, w.todo - {u}, if ok then w.added + {u} else w.added) else w
  }

  lemma {:induction false} PushMoves(ws: seq<Worker>, i: nat, u: Url, ok: bool, sleeper: nat)
    requires i < |ws| && ws[i].Pushing? && u in ws[i].todo && u !in ws[i].added
    ensures var vs := Signal(ws[i := AfterPush(ws[i], u, ok)], sleeper);
            && Pool(Won, vs) + multiset{u} == Pool(Won, ws)
            && Pool(Unsent, vs) == Pool(Unsent, ws) + (if ok then multiset{u} else multiset{})
            && Pool(InFetch, vs) == Pool(InFetch, ws)
            && Sum(Uncounted, vs) == Sum(Uncounted, ws)
            && (forall k :: 0 <= k < |vs| && vs[k].Sending? ==> vs[k] == ws[k])
  {
    hide Pool, Sum, Uncounted, InFetch;
    var w, next := ws[i], AfterPush(ws[i], u, ok);
    IdleChange(ws[i := next], Signal(ws[i := next], sleeper));
    PushShares(w.page, w.todo, w.added, u, ok);
    PushMovesOne(ws, i, u, ok, next);
  }

  lemma {:induction false} PushMovesOne(ws: seq<Worker>, i: nat, u: Url, ok: bool, next: Worker)
    requires i < |ws| && ws[i].Pushing? && next.Pushing?
    requires Won(ws[i]) == Won(next) + multiset{u}
    requires Unsent(next) == Unsent(ws[i]) + (if ok then multiset{u} else multiset{})
    ensures var vs := ws[i := next];
            && Pool(Won, vs) + multiset{u} == Pool(Won, ws)
            && Pool(Unsent, vs) == Pool(Unsent, ws) + (if ok then multiset{u} else multiset{})
            && Pool(InFetch, vs) == Pool(InFetch, ws)
            && Sum(Uncounted, vs) == Sum(Uncounted, ws)
  {
    PoolGives(Won, ws, i, next, multiset{u});
    PoolGains(Unsent, ws, i, next, if ok then multiset{u} else multiset{});
    PoolKept(InFetch, ws, i, next);
    SumUpdate(Uncounted, ws, i, next);
  }

  lemma {:induction false} PushShares(page: Url, todo: set<Url>, added: set<Url>, u: Url, ok: bool)
    requires u in todo && u !in added
    ensures Won(Pushing(page, todo, added)) == Won(Pushing(page, todo - {u}, added)) + multiset{u}
    ensures Won(Pushing(page, todo - {u}, added + {u})) == Won(Pushing(page, todo - {u}, added))
    ensures Unsent(Pushing(page, todo - {u}, added + {u})) == Unsent(Pushing(page, todo, added)) + multiset{u}
    ensures Unsent(Pushing(page, todo - {u}, added)) == Unsent(Pushing(page, todo, added))
  {
  }

  lemma {:induction false} AddedIsPushed(job: Job, s: State, i: nat, u: Url)
    requires Records(job, s) && i < |s.workers| && u in Unsent(s.workers[i])
    ensures u in s.log.pushed
  {
    PoolCovers(Unsent, s.workers, i);
    assert multiset(s.log.pushed)[u] >= Pool(Unsent, s.workers)[u] >= 1;
  }

  // What a push does to the state as a whole.
  lemma {:induction false} PushIs(job: Job, s: State, i: nat, u: Url, sleeper: nat, t: State)
    requires Takes(job, s, PushOne(i, u, sleeper), t)
    ensures !s.phase.Seeding? && i < |s.workers| && s.workers[i].Pushing? && u in s.workers[i].todo
    ensures if s.frontier.closed then
              && t.workers == Signal(s.workers[i := AfterPush(s.workers[i], u, false)], |s.workers|)
              && t == s.(workers := t.workers, log := s.log.(lostClaims := s.log.lostClaims + multiset{u}))
            else
              && t.workers == Signal(s.workers[i := AfterPush(s.workers[i], u, true)], sleeper)
              && t.frontier.items == s.frontier.items + [u]
              && t == s.(workers := t.workers, frontier := t.frontier,
                         log := s.log.(pushed := s.log.pushed + [u]))
  {
  }

  lemma {:induction false} PushKeepsLedger(job: Job, s: State, i: nat, u: Url, sleeper: nat, t: State)
    requires Protocol(job, s) && Ledger(job, s) && Takes(job, s, PushOne(i, u, sleeper), t)
    ensures Ledger(job, t)
  {
    PushIs(job, s, i, u, sleeper, t);
    PushNeverRefused(job, s, i, u, sleeper, t);
    WonIsFresh(job, s, i, u);
    if u in s.workers[i].added {
      AddedIsPushed(job, s, i, u);
    }
    hide Claims, Fetches, Records, LinkCount, Protocol, Takes, AfterPush, Signal;
    PushMoves(s.workers, i, u, !s.frontier.closed, if s.frontier.closed then |s.workers| else sleeper);
    if s.frontier.closed {
      RefusalKeepsLedger(job, s, u, t);
    } else {
      AcceptKeepsLedger(job, s, u, t);
    }
  }

  lemma {:induction false} RefusalKeepsLedger(job: Job, s: State, u: Url, t: State)
    requires Ledger(job, s) && !Undisturbed(s) && !s.phase.Seeding?
    requires t == s.(workers := t.workers, log := s.log.(lostClaims := s.log.lostClaims + multiset{u}))
    requires Pool(Won, t.workers) + multiset{u} == Pool(Won, s.workers)
    requires Pool(Unsent, t.workers) == Pool(Unsent, s.workers) && Pool(InFetch, t.workers) == Pool(InFetch, s.workers)
    requires Sum(Uncounted, t.workers) == Sum(Uncounted, s.workers) && |t.workers| == |s.workers|
    requires forall k :: 0 <= k < |t.workers| && t.workers[k].Sending? ==> t.workers[k] == s.workers[k]
    ensures Ledger(job, t)
  {
    OutcomeKeepsClaims(job, s, u, t);
    SameFetches(s, t);
    SameRecords(job, s, t);
    SameLinkCount(s, t);
  }

  // A won URL becomes a push or a loss.
  lemma {:induction false} OutcomeKeepsClaims(job: Job, s: State, u: Url, t: State)
    requires Claims(job, s) && !t.phase.Seeding? && t.visited == s.visited
    requires multiset(t.log.pushed) + t.log.lostClaims == multiset(s.log.pushed) + s.log.lostClaims + multiset{u}
    requires Pool(Won, t.workers) + multiset{u} == Pool(Won, s.workers)
    requires Undisturbed(t) ==> Undisturbed(s) && t.log.lostClaims == s.log.lostClaims
    ensures Claims(job, t)
  {
    Balance(multiset(s.log.pushed) + s.log.lostClaims, Pool(Won, s.workers), Claimed(job, s),
            multiset(t.log.pushed) + t.log.lostClaims, Pool(Won, t.workers), Claimed(job, t), multiset{u}, multiset{});
  }

  lemma {:induction false} AcceptKeepsRecords(job: Job, s: State, u: Url, t: State)
    requires Records(job, s) && !s.phase.Seeding?
    requires t == s.(workers := t.workers, frontier := t.frontier, log := s.log.(pushed := s.log.pushed + [u]))
    requires Pool(Unsent, t.workers) == Pool(Unsent, s.workers) + multiset{u}
    ensures Records(job, t)
  {
    Balance(multiset(Stream(s)) + s.log.lostRecords, Pool(Unsent, s.workers), multiset(s.log.pushed),
            multiset(Stream(t)) + t.log.lostRecords, Pool(Unsent, t.workers), multiset(t.log.pushed), multiset{},
            multiset{u});
  }

  lemma {:induction false} AcceptKeepsLedger(job: Job, s: State, u: Url, t: State)
    requires Ledger(job, s) && !s.phase.Seeding?
    requires t == s.(workers := t.workers, frontier := t.frontier, log := s.log.(pushed := s.log.pushed + [u]))
    requires t.frontier.items == s.frontier.items + [u]
    requires Pool(Won, t.workers) + multiset{u} == Pool(Won, s.workers)
    requires Pool(Unsent, t.workers) == Pool(Unsent, s.workers) + multiset{u}
    requires Pool(InFetch, t.workers) == Pool(InFetch, s.workers)
    requires Sum(Uncounted, t.workers) == Sum(Uncounted, s.workers) && |t.workers| == |s.workers|
    requires forall k :: 0 <= k < |t.workers| && t.workers[k].Sending? ==> t.workers[k] == s.workers[k]
    ensures Ledger(job, t)
  {
    AcceptKeepsClaims(job, s, u, t);
    AcceptKeepsRecords(job, s, u, t);
    AcceptKeepsFetches(s, u, t);
  }

  lemma {:induction false} AcceptKeepsFetches(s: State, u: Url, t: State)
    requires Fetches(s) && LinkCount(s)
    requires t == s.(workers := t.workers, frontier := t.frontier, log := s.log.(pushed := s.log.pushed + [u]))
    requires t.frontier.items == s.frontier.items + [u]
    requires Pool(InFetch, t.workers) == Pool(InFetch, s.workers)
    requires Sum(Uncounted, t.workers) == Sum(Uncounted, s.workers) && |t.workers| == |s.workers|
    requires forall k :: 0 <= k < |t.workers| && t.workers[k].Sending? ==> t.workers[k] == s.workers[k]
    ensures Fetches(t) && LinkCount(t)
  {
    assert t.log.pushed == t.log.popped + t.frontier.items;
    SameLinkCount(s, t);
  }

  lemma {:induction false} AcceptKeepsClaims(job: Job, s: State, u: Url, t: State)
    requires Claims(job, s) && !s.phase.Seeding?
    requires t == s.(workers := t.workers, frontier := t.frontier, log := s.log.(pushed := s.log.pushed + [u]))
    requires Pool(Won, t.workers) + multiset{u} == Pool(Won, s.workers)
    ensures Claims(job, t)
  {
    assert multiset(t.log.pushed) + t.log.lostClaims == multiset(s.log.pushed) + s.log.lostClaims + multiset{u};
    OutcomeKeepsClaims(job, s, u, t);
  }

  // The writer: what leaves the stream is what it lost.
  lemma {:induction false} WriterKeepsLedger(job: Job, s: State, t: State, lost: multiset<Url>)
    requires Ledger(job, s) && !t.phase.Seeding?
    requires t.workers == s.workers && t.frontier == s.frontier && t.visited == s.visited && t.stats == s.stats
    requires t.status == s.status.(faulted := s.status.faulted || lost != multiset{})
    requires t.log == s.log.(lostRecords := s.log.lostRecords + lost)
    requires multiset(Stream(t)) + lost == multiset(Stream(s))
    ensures Ledger(job, t)
  {
    SameClaims(job, s, t);
    SameFetches(s, t);
    assert multiset(Stream(t)) + t.log.lostRecords == (multiset(Stream(t)) + lost) + s.log.lostRecords;
    SameRecords(job, s, t);
    assert |multiset(Stream(t))| + |lost| == |multiset(Stream(s))|;
    SameLinkCount(s, t);
  }

  lemma {:induction false} StreamParts(w: Writer<Url>, channel: seq<Url>)
    ensures multiset(StreamOf(w, channel)) == multiset(Delivered(w.calls)) + multiset(w.batch) + multiset(channel)
  {
  }

  // Flushing leaves the stream as it is, or takes the batch out of it.
  lemma {:induction false} FlushStream(w: Writer<Url>, channel: seq<Url>, ok: bool)
    ensures multiset(StreamOf(Flushed(w, ok), channel)) + LostByFlush(w, ok) == multiset(StreamOf(w, channel))
  {
    if w.batch != [] {
      StreamParts(w, channel);
      StreamParts(Flushed(w, ok), channel);
      DeliveredSnoc(w.calls, Rpush(w.batch, ok));
      var sent := Delivered(w.calls);
      assert multiset(Delivered(Flushed(w, ok).calls)) + LostByFlush(w, ok) == multiset(sent) + multiset(w.batch) by {
        if ok {
          assert multiset(sent + w.batch) == multiset(sent) + multiset(w.batch);
        } else {
          assert sent + [] == sent;
        }
      }
    }
  }

  lemma {:induction false} HeadMovesToBatch(w: Writer<Url>, channel: seq<Url>)
    requires channel != []
    ensures StreamOf(Writer(w.batch + [channel[0]], w.calls), channel[1..]) == StreamOf(w, channel)
  {
    assert w.batch + channel == (w.batch + [channel[0]]) + channel[1..];
    assert StreamOf(w, channel) == Delivered(w.calls) + (w.batch + channel);
  }

  lemma {:induction false} ReceiveKeepsLedger(job: Job, s: State, ok: bool, t: State)
    requires Ledger(job, s) && Takes(job, s, Receive(ok), t)
    ensures Ledger(job, t)
  {
    var fuller := Writer(s.writer.batch + [s.channel[0]], s.writer.calls);
    HeadMovesToBatch(s.writer, s.channel);
    if |fuller.batch| >= job.batchSize {
      FlushStream(fuller, s.channel[1..], ok);
      assert t.writer == Flushed(fuller, ok) && t.channel == s.channel[1..];
      WriterKeepsLedger(job, s, t, LostByFlush(fuller, ok));
    } else {
      WriterKeepsLedger(job, s, t, multiset{});
    }
  }

  lemma {:induction false} FlushKeepsLedger(job: Job, s: State, ok: bool, t: State)
    requires Ledger(job, s) && Takes(job, s, FlushRest(ok), t)
    ensures Ledger(job, t)
  {
    FlushStream(s.writer, s.channel, ok);
    WriterKeepsLedger(job, s, t, LostByFlush(s.writer, ok));
  }

  lemma {:induction false} DoneKeepsLedger(job: Job, s: State, i: nat)
    requires Ledger(job, s) && Enabled(job, s, PageDone(i))
    ensures Ledger(job, DoneEffect(s, i))
  {
    AsideKeepsLedger(job, s, DoneEffect(s, i));
  }

  lemma {:induction false} CloserKeepsLedger(job: Job, s: State)
    requires Ledger(job, s)
    ensures Ledger(job, Apply(job, s, CloseOnCancel))
  {
    AsideKeepsLedger(job, s, Apply(job, s, CloseOnCancel));
  }

  lemma {:induction false} WorkKeepsLedger(job: Job, s: State, i: nat, act: Act, t: State)
    requires Ledger(job, s) && Takes(job, s, Work(i, act), t)
    ensures Ledger(job, t)
  {
    WorkKeepsClaims(job, s, i, act);
    WorkKeepsFetches(job, s, i, act);
    WorkKeepsRecords(job, s, i, act);
  }

  // Every step of every goroutine keeps the books.
  lemma {:induction false} StepKeepsLedger(job: Job, s: State, step: Step, t: State)
    requires Protocol(job, s) && Ledger(job, s) && Takes(job, s, step, t)
    ensures Ledger(job, t)
  {
    if step.Seed? {
      SeedKeepsClaims(job, s, step.outcome, t);
      SeedKeepsRecords(job, s, step.outcome, t);
      SeedKeepsFetches(job, s, step.outcome, t);
    } else if step.TryPop? {
      PopKeepsLedger(job, s, step.i, t);
    } else if step.Work? {
      WorkKeepsLedger(job, s, step.i, step.act, t);
    } else if step.PushOne? {
      PushKeepsLedger(job, s, step.i, step.u, step.sleeper, t);
    } else if step.Receive? {
      ReceiveKeepsLedger(job, s, step.ok, t);
    } else if step.FlushRest? {
      FlushKeepsLedger(job, s, step.ok, t);
    } else if step.PageDone? {
      DoneKeepsLedger(job, s, step.i);
    } else if step.CloseOnCancel? {
      CloserKeepsLedger(job, s);
    } else if step.CloseChannel? {
      AsideKeepsLedger(job, s, s.(phase := Draining));
    } else {
      AsideKeepsLedger(job, s, s.(status := s.status.(cancelled := true)));
    }
  }
}
