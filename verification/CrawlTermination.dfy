// Over a finite set of URLs every run of the crawl ends with all workers
// returned and the output flushed, whether and whenever it is cancelled.
module CrawlTermination {
  import opened OutputWriter
  import opened Tally
  import opened CrawlModel
  import opened CrawlProtocol
  import opened CrawlLedger
  import opened CrawlSearch

  // A finite set that contains the seed and the links of its members.
  ghost predicate Encloses(job: Job, urls: set<Url>) {
    job.seed in urls && forall page :: page in urls ==> Links(job.site, page) <= urls
  }

  lemma {:induction false} PathIsEnclosed(job: Job, urls: set<Url>, path: seq<Url>)
    requires Encloses(job, urls) && IsPath(job, path)
    ensures path[|path| - 1] in urls
    decreases |path|
  {
    if |path| > 1 {
      var shorter := path[..|path| - 1];
      assert IsPath(job, shorter);
      PathIsEnclosed(job, urls, shorter);
      assert IsLink(job.site, path[|path| - 2], path[|path| - 2 + 1]);
      LinksAreLinks(job.site, path[|path| - 2], path[|path| - 1]);
    }
  }

  // Pages and claims still to be worked off by a worker, the most costly first.
  function Big(w: Worker): nat {
    match w
    case Claiming(_, _, won) => 3 * |won|
    case Pushing(_, todo, _) => 3 * |todo|
    case Fetching(_) => 1
    case _ => 0
  }

  // Local moves still ahead of a worker.
  function Small(w: Worker): nat {
    match w
    case Returned => 0
    case Asleep => 1
    case AtPop => 2
    case Signalled => 2
    case Finishing(_, _) => 3
    case Sending(_, todo, _) => 4 + 2 * |todo|
    case Pushing(_, _, added) => 5 + 2 * |added|
    case Claiming(_, todo, _) => 7 + |todo|
    case Parsed(_, links) => 8 + |links|
    case Fetching(_) => 0
  }

  // Four numbers that decrease in this order of precedence.
  datatype Rank = Rank(unclaimed: nat, pages: nat, open: nat, moves: nat)

  ghost predicate Below(r: Rank, q: Rank) {
    || r.unclaimed < q.unclaimed
    || (r.unclaimed == q.unclaimed && r.pages < q.pages)
    || (r.unclaimed == q.unclaimed && r.pages == q.pages && r.open < q.open)
    || (r.unclaimed == q.unclaimed && r.pages == q.pages && r.open == q.open && r.moves < q.moves)
  }

  function PhaseRank(s: State): nat {
    (match s.phase case Seeding => 3 case Crawling => 2 case Draining => 1 case Finished => 0)
    + (if s.status.cancelled then 0 else 1) + (if s.status.closerDone then 0 else 1)
  }

  ghost function RankOf(s: State, urls: set<Url>): Rank {
    Rank(|urls - s.visited|,
         Sum(Big, s.workers) + 2 * |s.frontier.items|,
         if s.frontier.closed then 0 else 1,
         Sum(Small, s.workers) + |s.channel| + PhaseRank(s))
  }

  lemma {:induction false} ClaimShrinks(urls: set<Url>, visited: set<Url>, u: Url)
    ensures |urls - (visited + {u})| <= |urls - visited|
    ensures u in urls && u !in visited ==> |urls - (visited + {u})| < |urls - visited|
  {
    assert urls - (visited + {u}) == (urls - visited) - {u};
  }

  lemma {:induction false} RankMoves(ws: seq<Worker>, i: nat, w: Worker)
    requires i < |ws|
    ensures Sum(Big, ws[i := w]) + Big(ws[i]) == Sum(Big, ws) + Big(w)
    ensures Sum(Small, ws[i := w]) + Small(ws[i]) == Sum(Small, ws) + Small(w)
  {
    SumUpdate(Big, ws, i, w);
    SumUpdate(Small, ws, i, w);
  }

  // Waking nobody changes nothing; waking somebody costs no page.
  lemma {:induction false} RankWoken(ws: seq<Worker>)
    ensures Sum(Big, WakeAll(ws)) == Sum(Big, ws)
    ensures !SomeAsleep(ws) ==> WakeAll(ws) == ws
  {
    SumSame(Big, WakeAll(ws), ws);
  }

  // An act wins a URL, or works off a page or a claim, or makes a local move.
  lemma {:induction false} ActDecreases(job: Job, s: State, w: Worker, act: Act)
    requires CanAct(job, s, w, act) && !(act.Claim? && act.u !in s.visited)
    ensures var v, t := WorkerAfter(job, s, w, act), SharedAfter(job, s, w, act);
            Big(v) < Big(w) || (Big(v) == Big(w) && Small(v) + |t.channel| < Small(w) + |s.channel|)
  {
    if act.Claim? || act.Send? {
      UrlDecreases(job, s, w, act, act.u);
    } else {
      PhaseDecreases(job, s, w, act);
    }
  }

  lemma {:induction false} UrlDecreases(job: Job, s: State, w: Worker, act: Act, u: Url)
    requires CanAct(job, s, w, act) && (act == Send(u) || (act == Claim(u) && u in s.visited))
    ensures var v, t := WorkerAfter(job, s, w, act), SharedAfter(job, s, w, act);
            Big(v) == Big(w) && Small(v) + |t.channel| < Small(w) + |s.channel|
  {
    assert |w.todo - {u}| == |w.todo| - 1;
  }

  lemma {:induction false} PhaseDecreases(job: Job, s: State, w: Worker, act: Act)
    requires CanAct(job, s, w, act) && !act.Claim? && !act.Send?
    ensures var v, t := WorkerAfter(job, s, w, act), SharedAfter(job, s, w, act);
            t.channel == s.channel && (Big(v) < Big(w) || (Big(v) == Big(w) && Small(v) < Small(w)))
  {
    hide Links, FetchFails;
  }

  lemma {:induction false} ActLeaves(job: Job, s: State, w: Worker, act: Act)
    requires CanAct(job, s, w, act) && !(act.Claim? && act.u !in s.visited)
    ensures var t := SharedAfter(job, s, w, act);
            t.visited == s.visited && PhaseRank(t) == PhaseRank(s) && t.frontier == s.frontier
  {
    if act.Claim? {
      assert s.visited + {act.u} == s.visited;
    }
  }

  lemma {:induction false} WorkDecreases(job: Job, urls: set<Url>, s: State, i: nat, act: Act, t: State)
    requires Encloses(job, urls) && Claims(job, s) && Sound(job, s) && Takes(job, s, Work(i, act), t)
    ensures Below(RankOf(t, urls), RankOf(s, urls))
  {
    if act.Claim? && act.u !in s.visited {
      assert act.u in Ahead(s.workers[i]) && t.visited == s.visited + {act.u};
      WinIsEnclosed(job, urls, s, i, act.u);
      ClaimShrinks(urls, s.visited, act.u);
    } else {
      ActDecreases(job, s, s.workers[i], act);
      ActLeaves(job, s, s.workers[i], act);
      OneWorkerDecreases(urls, s, i, WorkerAfter(job, s, s.workers[i], act), t);
    }
  }

  lemma {:induction false} WinIsEnclosed(job: Job, urls: set<Url>, s: State, i: nat, u: Url)
    requires Encloses(job, urls) && Claims(job, s) && Sound(job, s)
    requires i < |s.workers| && u in Ahead(s.workers[i]) && u !in s.visited
    ensures u in urls
  {
    var path :| IsPath(job, path) && path[|path| - 1] == u;
    PathIsEnclosed(job, urls, path);
  }

  lemma {:induction false} OneWorkerDecreases(urls: set<Url>, s: State, i: nat, v: Worker, t: State)
    requires i < |s.workers| && t.workers == s.workers[i := v]
    requires t.visited == s.visited && PhaseRank(t) == PhaseRank(s) && t.frontier == s.frontier
    requires Big(v) < Big(s.workers[i])
          || (Big(v) == Big(s.workers[i]) && Small(v) + |t.channel| < Small(s.workers[i]) + |s.channel|)
    ensures Below(RankOf(t, urls), RankOf(s, urls))
  {
    RankMoves(s.workers, i, v);
  }

  lemma {:induction false} SeedDecreases(job: Job, urls: set<Url>, s: State, outcome: SeedOutcome, t: State)
    requires Encloses(job, urls) && Protocol(job, s) && Takes(job, s, Seed(outcome), t)
    ensures Below(RankOf(t, urls), RankOf(s, urls))
  {
    ClaimShrinks(urls, s.visited, job.seed);
  }

  lemma {:induction false} PopDecreases(job: Job, urls: set<Url>, s: State, i: nat, t: State)
    requires Takes(job, s, TryPop(i), t)
    ensures Below(RankOf(t, urls), RankOf(s, urls))
  {
    RankMoves(s.workers, i, t.workers[i]);
  }

  lemma {:induction false} PushDecreases(job: Job, urls: set<Url>, s: State, i: nat, u: Url, sleeper: nat, t: State)
    requires Takes(job, s, PushOne(i, u, sleeper), t)
    ensures Below(RankOf(t, urls), RankOf(s, urls))
  {
    var next := AfterPush(s.workers[i], u, !s.frontier.closed);
    var moved := s.workers[i := next];
    RankMoves(s.workers, i, next);
    SumSame(Big, Signal(moved, sleeper), moved);
  }

  lemma {:induction false} DoneDecreases(job: Job, urls: set<Url>, s: State, i: nat)
    requires Protocol(job, s) && Enabled(job, s, PageDone(i))
    ensures Below(RankOf(DoneEffect(s, i), urls), RankOf(s, urls))
  {
    var next := if s.workers[i].leaving then Returned else AtPop;
    Moved(s, i, next);
    ReturnDecreases(urls, s, i, next, DoneEffect(s, i));
  }

  lemma {:induction false} ReturnDecreases(urls: set<Url>, s: State, i: nat, next: Worker, t: State)
    requires i < |s.workers| && s.workers[i].Finishing? && (next == Returned || next == AtPop)
    requires t.frontier.items == s.frontier.items && (s.frontier.closed ==> t.frontier.closed)
    requires t.workers == s.workers[i := next]
          || (t.workers == WakeAll(s.workers[i := next]) && t.frontier.closed)
    requires s.frontier.closed ==> !SomeAsleep(s.workers[i := next])
    requires t.visited == s.visited && t.channel == s.channel && PhaseRank(t) == PhaseRank(s)
    ensures Below(RankOf(t, urls), RankOf(s, urls))
  {
    RankMoves(s.workers, i, next);
    RankWoken(s.workers[i := next]);
  }

  lemma {:induction false} CloserDecreases(job: Job, urls: set<Url>, s: State, t: State)
    requires Protocol(job, s) && Takes(job, s, CloseOnCancel, t)
    ensures Below(RankOf(t, urls), RankOf(s, urls))
  {
    RankWoken(s.workers);
  }

  // Steps of the writer and the main goroutine, and cancellation.
  lemma {:induction false} AsideDecreases(job: Job, urls: set<Url>, s: State, step: Step, t: State)
    requires Takes(job, s, step, t)
    requires step.Receive? || step.CloseChannel? || step.FlushRest? || step.Cancel?
    ensures Below(RankOf(t, urls), RankOf(s, urls))
  {
    assert t.workers == s.workers && t.frontier == s.frontier && t.visited == s.visited;
  }

  lemma {:induction false} StepDecreases(job: Job, urls: set<Url>, s: State, step: Step, t: State)
    requires Encloses(job, urls) && Invariant(job, s) && Takes(job, s, step, t)
    ensures Below(RankOf(t, urls), RankOf(s, urls))
  {
    if step.Seed? {
      SeedDecreases(job, urls, s, step.outcome, t);
    } else if step.TryPop? {
      PopDecreases(job, urls, s, step.i, t);
    } else if step.Work? {
      WorkDecreases(job, urls, s, step.i, step.act, t);
    } else if step.PushOne? {
      PushDecreases(job, urls, s, step.i, step.u, step.sleeper, t);
    } else if step.PageDone? {
      DoneDecreases(job, urls, s, step.i);
    } else if step.CloseOnCancel? {
      CloserDecreases(job, urls, s, t);
    } else {
      AsideDecreases(job, urls, s, step, t);
    }
  }

  lemma {:induction false} RunEndsFrom(job: Job, urls: set<Url>, run: nat -> State, k: nat) returns (end: nat)
    requires Encloses(job, urls) && IsRun(job, run)
    ensures k <= end && run(end).phase.Finished?
    decreases RankOf(run(k), urls).unclaimed, RankOf(run(k), urls).pages, RankOf(run(k), urls).open,
      RankOf(run(k), urls).moves
  {
    RunKeepsInvariant(job, run, k);
    if run(k).phase.Finished? {
      end := k;
    } else {
      var s, t := run(k), run(k + 1);
      NeverStuck(job, s);
      assert Follows(job, s, t);
      var step: Step :| Takes(job, s, step, t);
      StepDecreases(job, urls, s, step, t);
      end := RunEndsFrom(job, urls, run, k + 1);
    }
  }

  // Every maximal run ends, with every worker returned, every record flushed, and
  // only reachable URLs pushed.
  lemma {:induction false} EveryRunEnds(job: Job, urls: set<Url>, run: nat -> State) returns (end: nat)
    requires Encloses(job, urls) && IsRun(job, run)
    ensures run(end).phase.Finished? && AllReturned(run(end).workers)
    ensures run(end).channel == [] && run(end).writer.batch == []
    ensures Stuck(job, run(end))
  {
    end := RunEndsFrom(job, urls, run, 0);
    RunKeepsInvariant(job, run, end);
  }

  // The crawl as a whole: every maximal run over finitely many URLs ends, and if
  // it was neither cancelled nor failed, it pushed no URL twice, fetched each once, and
  // delivered each but the seed once; and if it also stayed below the page limit, it
  // pushed exactly the reachable URLs, and visited these and the known ones.
  lemma {:induction false} CrawlTheorem(job: Job, urls: set<Url>, run: nat -> State) returns (end: nat)
    requires Encloses(job, urls) && IsRun(job, run) && 0 < job.workers
    ensures run(end).phase.Finished?
    ensures Undisturbed(run(end)) && Unlimited(job, run(end)) ==>
      forall u :: u in run(end).log.pushed <==> Reachable(job, u)
    ensures Undisturbed(run(end)) ==>
      forall u :: multiset(run(end).log.pushed)[u] <= 1
    ensures Undisturbed(run(end)) && Unlimited(job, run(end)) ==>
      forall u :: u in run(end).visited <==> u in job.known || Reachable(job, u)
    ensures Undisturbed(run(end)) ==> multiset(run(end).log.fetched) == multiset(run(end).log.pushed)
    ensures Undisturbed(run(end)) && job.seed !in job.known ==>
      multiset(Delivered(run(end).writer.calls)) + multiset{job.seed} == multiset(run(end).log.pushed)
  {
    end := EveryRunEnds(job, urls, run);
    RunKeepsInvariant(job, run, end);
    var s := run(end);
    if Undisturbed(s) {
      FinishedAccounts(job, s);
      if Unlimited(job, s) {
        CrawlIsExact(job, s);
      }
      forall u
        ensures multiset(s.log.pushed)[u] <= 1
      {
        PushesAreReachable(job, s, u);
      }
      if job.seed !in job.known {
        CountersConserved(job, s);
      }
    }
  }
}
