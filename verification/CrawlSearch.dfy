// What the crawl finds: its visited set is a graph search, over every
// interleaving.  Black pages are fetched, grey ones are queued or in hand.
module CrawlSearch {
  import opened Wrappers
  import opened OutputWriter
  import opened Tally
  import opened CrawlModel
  import opened CrawlProtocol
  import opened CrawlLedger

  // The page can be fetched, and one of its references is, once normalised against
  // it, this URL of the same domain.
  ghost predicate IsLink(site: Site, page: Url, u: Url) {
    && site.fetch(page).Hrefs?
    && site.sameDomain(u)
    && exists i :: 0 <= i < |site.fetch(page).hrefs| && site.normalize(site.fetch(page).hrefs[i], page) == Some(u)
  }

  // The set a worker makes of a page holds exactly its links.
  lemma {:induction false} LinksAreLinks(site: Site, page: Url, u: Url)
    ensures u in Links(site, page) <==> IsLink(site, page, u)
  {
    if site.fetch(page).Hrefs? {
      var hrefs := site.fetch(page).hrefs;
      if i :| 0 <= i < |hrefs| && site.normalize(hrefs[i], page) == Some(u) {
        assert hrefs[i] in hrefs;
      }
    }
  }

  // A path from the seed along links, outside the set known before the crawl.
  ghost predicate IsPath(job: Job, path: seq<Url>) {
    && path != [] && path[0] == job.seed
    && (forall k :: 0 <= k < |path| ==> path[k] !in job.known)
    && (forall k :: 0 <= k < |path| - 1 ==> IsLink(job.site, path[k], path[k + 1]))
  }

  ghost predicate Reachable(job: Job, u: Url) {
    exists path :: IsPath(job, path) && path[|path| - 1] == u
  }

  lemma {:induction false} ReachableStep(job: Job, page: Url, u: Url)
    requires Reachable(job, page) && u in Links(job.site, page) && u !in job.known
    ensures Reachable(job, u)
  {
    var path :| IsPath(job, path) && path[|path| - 1] == page;
    LinksAreLinks(job.site, page, u);
    hide IsLink;
    assert IsPath(job, path + [u]);
    assert (path + [u])[|path + [u]| - 1] == u;
  }

  // Links that a worker has found and not claimed yet.
  function Ahead(w: Worker): set<Url> {
    match w
    case Parsed(_, links) => links
    case Claiming(_, todo, _) => todo
    case _ => {}
  }

  ghost predicate Found(s: State, u: Url) {
    u in s.visited || exists i :: 0 <= i < |s.workers| && u in Ahead(s.workers[i])
  }

  // Everything visited by the crawl is reachable, whatever happens.
  ghost predicate Sound(job: Job, s: State) {
    && (forall u :: u in s.visited && u !in job.known ==> Reachable(job, u))
    && (forall i, u :: 0 <= i < |s.workers| && u in Ahead(s.workers[i]) && u !in job.known ==> Reachable(job, u))
  }

  // The page limit is off, or not reached yet.
  predicate Unlimited(job: Job, s: State) {
    job.maxPages <= 0 || s.stats.pages < job.maxPages
  }

  // The links of a fetched page are visited, or some worker is about to claim
  // them, as long as no request is aborted, no call fails and no limit is reached.
  ghost predicate Covered(job: Job, s: State) {
    && (Undisturbed(s) && !s.phase.Seeding? ==> job.seed in s.visited && (s.status.accepted || job.seed in job.known))
    && (Undisturbed(s) && Unlimited(job, s) ==>
      forall page, u :: page in s.log.fetched && u in Links(job.site, page) ==> Found(s, u))
  }

  lemma {:induction false} StartSearch(job: Job)
    ensures Sound(job, Start(job)) && Covered(job, Start(job))
  {
  }

  // A page in hand has been popped, so it was pushed, so it is visited and new.
  lemma {:induction false} HeldPageIsVisited(job: Job, s: State, i: nat)
    requires Claims(job, s) && Fetches(s) && i < |s.workers| && s.workers[i].Fetching?
    ensures s.workers[i].page in s.visited && s.workers[i].page !in job.known
  {
    var page := s.workers[i].page;
    PoolCovers(InFetch, s.workers, i);
    assert InFetch(s.workers[i])[page] == 1;
    assert multiset(s.log.popped)[page] >= 1;
    assert page in s.log.popped && page in s.log.pushed;
    assert multiset(s.log.pushed)[page] >= 1;
    assert Claimed(job, s)[page] >= multiset(s.log.pushed)[page];
  }

  // What one act does to the links ahead of a worker.
  lemma {:induction false} ActAhead(job: Job, s: State, w: Worker, act: Act)
    requires CanAct(job, s, w, act)
    ensures var v, t := WorkerAfter(job, s, w, act), SharedAfter(job, s, w, act);
            && (forall u :: u in Ahead(v) ==> u in Ahead(w) || (w.Fetching? && u in Links(job.site, w.page)))
            && (forall u :: u in t.visited ==> u in s.visited || u in Ahead(w))
  {
  }

  lemma {:induction false} WorkKeepsSound(job: Job, s: State, i: nat, act: Act, t: State)
    requires Sound(job, s) && Claims(job, s) && Fetches(s) && Takes(job, s, Work(i, act), t)
    ensures Sound(job, t)
  {
    var w := s.workers[i];
    ActAhead(job, s, w, act);
    if w.Fetching? {
      HeldPageIsVisited(job, s, i);
    }
    forall k, u | 0 <= k < |t.workers| && u in Ahead(t.workers[k]) && u !in job.known
      ensures Reachable(job, u)
    {
      if k == i && u !in Ahead(w) {
        ReachableStep(job, w.page, u);
      } else {
        assert u in Ahead(s.workers[k]);
      }
    }
  }

  // Without aborts, failures and limits nothing ahead is forgotten, and a fetch
  // puts all links of its page ahead.
  lemma {:induction false} ActForgetsNothing(job: Job, s: State, w: Worker, act: Act)
    requires CanAct(job, s, w, act)
    requires Undisturbed(SharedAfter(job, s, w, act)) && Unlimited(job, SharedAfter(job, s, w, act))
    ensures var v, t := WorkerAfter(job, s, w, act), SharedAfter(job, s, w, act);
            && Undisturbed(s) && Unlimited(job, s) && s.visited <= t.visited
            && (forall u :: u in Ahead(w) ==> u in Ahead(v) || u in t.visited)
            && (forall page :: page in t.log.fetched ==> page in s.log.fetched || (Ahead(v) == Links(job.site, page)))
  {
    if act.Fetch? {
      var t := SharedAfter(job, s, w, act);
      assert t.log.fetched == s.log.fetched + [w.page];
    }
  }

  lemma {:induction false} WorkKeepsCovered(job: Job, s: State, i: nat, act: Act, t: State)
    requires Covered(job, s) && Takes(job, s, Work(i, act), t)
    ensures Covered(job, t)
  {
    var w := s.workers[i];
    ActFrame(job, s, w, act);
    if Undisturbed(t) && Unlimited(job, t) {
      ActForgetsNothing(job, s, w, act);
      FindingsStay(job, s, i, t);
    }
  }

  lemma {:induction false} FindingsStay(job: Job, s: State, i: nat, t: State)
    requires Covered(job, s) && Undisturbed(s) && Unlimited(job, s) && !s.phase.Seeding?
    requires i < |s.workers| && |t.workers| == |s.workers|
    requires forall k :: 0 <= k < |s.workers| && k != i ==> Ahead(t.workers[k]) == Ahead(s.workers[k])
    requires s.visited <= t.visited && t.status.accepted == s.status.accepted
    requires forall u :: u in Ahead(s.workers[i]) ==> u in Ahead(t.workers[i]) || u in t.visited
    requires forall page :: page in t.log.fetched ==>
      page in s.log.fetched || Ahead(t.workers[i]) == Links(job.site, page)
    ensures Covered(job, t)
  {
    forall page, u | page in t.log.fetched && u in Links(job.site, page)
      ensures Found(t, u)
    {
      if page in s.log.fetched && u !in s.visited {
        assert Found(s, u);
        var k :| 0 <= k < |s.workers| && u in Ahead(s.workers[k]);
        assert u in Ahead(t.workers[k]) || u in t.visited;
      }
    }
  }

  lemma {:induction false} SeedKeepsSearch(job: Job, s: State, outcome: SeedOutcome, t: State)
    requires Sound(job, s) && Covered(job, s) && Claims(job, s) && Fetches(s) && Takes(job, s, Seed(outcome), t)
    ensures Sound(job, t) && Covered(job, t)
  {
    if job.seed !in job.known {
      assert IsPath(job, [job.seed]);
      assert Reachable(job, job.seed);
    }
    NothingFetchedYet(s);
  }

  lemma {:induction false} NothingFetchedYet(s: State)
    requires Fetches(s) && s.log.pushed == []
    ensures s.log.fetched == []
  {
    assert |multiset(s.log.fetched)| <= |multiset(s.log.popped)|;
  }

  // Steps that claim nothing and fetch nothing.
  lemma {:induction false} QuietKeepsSearch(job: Job, s: State, t: State)
    requires Sound(job, s) && Covered(job, s)
    requires t.visited == s.visited && t.log.fetched == s.log.fetched && |t.workers| == |s.workers|
    requires forall k :: 0 <= k < |s.workers| ==> Ahead(t.workers[k]) == Ahead(s.workers[k])
    requires (t.phase.Seeding? <==> s.phase.Seeding?) && t.status.accepted == s.status.accepted
    requires (Undisturbed(t) ==> Undisturbed(s)) && t.stats == s.stats
    ensures Sound(job, t) && Covered(job, t)
  {
    forall u | Found(s, u)
      ensures Found(t, u)
    {
      if u !in s.visited {
        var k :| 0 <= k < |s.workers| && u in Ahead(s.workers[k]);
        assert u in Ahead(t.workers[k]);
      }
    }
    forall i, u | 0 <= i < |t.workers| && u in Ahead(t.workers[i]) && u !in job.known
      ensures Reachable(job, u)
    {
      assert u in Ahead(s.workers[i]);
    }
  }

  lemma {:induction false} QueueStepIsQuiet(job: Job, s: State, step: Step, t: State)
    requires Takes(job, s, step, t) && (step.TryPop? || step.PushOne? || step.PageDone?)
    ensures t.visited == s.visited && t.log.fetched == s.log.fetched && t.status == s.status && t.phase == s.phase
            && t.stats == s.stats
    ensures |t.workers| == |s.workers|
    ensures forall k :: 0 <= k < |s.workers| ==> Ahead(t.workers[k]) == Ahead(s.workers[k])
  {
  }

  lemma {:induction false} OtherStepIsQuiet(job: Job, s: State, step: Step, t: State)
    requires Takes(job, s, step, t)
    requires step.Receive? || step.CloseOnCancel? || step.CloseChannel? || step.FlushRest? || step.Cancel?
    ensures t.visited == s.visited && t.log.fetched == s.log.fetched && t.status.accepted == s.status.accepted
    ensures (t.phase.Seeding? <==> s.phase.Seeding?) && (Undisturbed(t) ==> Undisturbed(s)) && t.stats == s.stats
    ensures |t.workers| == |s.workers|
    ensures forall k :: 0 <= k < |s.workers| ==> Ahead(t.workers[k]) == Ahead(s.workers[k])
  {
  }

  lemma {:induction false} StepKeepsSearch(job: Job, s: State, step: Step, t: State)
    requires Ledger(job, s) && Sound(job, s) && Covered(job, s) && Takes(job, s, step, t)
    ensures Sound(job, t) && Covered(job, t)
  {
    if step.Seed? {
      SeedKeepsSearch(job, s, step.outcome, t);
    } else if step.Work? {
      WorkKeepsSound(job, s, step.i, step.act, t);
      WorkKeepsCovered(job, s, step.i, step.act, t);
    } else if step.TryPop? || step.PushOne? || step.PageDone? {
      QueueStepIsQuiet(job, s, step, t);
      QuietKeepsSearch(job, s, t);
    } else {
      OtherStepIsQuiet(job, s, step, t);
      QuietKeepsSearch(job, s, t);
    }
  }

  // Everything a run keeps.
  ghost predicate Invariant(job: Job, s: State) {
    Protocol(job, s) && Ledger(job, s) && Sound(job, s) && Covered(job, s)
  }

  lemma {:induction false} StepKeepsInvariant(job: Job, s: State, step: Step, t: State)
    requires Invariant(job, s) && Takes(job, s, step, t)
    ensures Invariant(job, t)
  {
    StepKeepsProtocol(job, s, step, t);
    StepKeepsLedger(job, s, step, t);
    StepKeepsSearch(job, s, step, t);
  }

  // Every state of every run satisfies the invariant.
  lemma {:induction false} RunKeepsInvariant(job: Job, run: nat -> State, k: nat)
    requires IsRun(job, run)
    ensures Invariant(job, run(k))
  {
    if k == 0 {
      StartProtocol(job);
      StartLedger(job);
      StartSearch(job);
    } else {
      RunKeepsInvariant(job, run, k - 1);
      var s, t := run(k - 1), run(k - 1 + 1);
      assert Follows(job, s, t);
      if exists step: Step :: Takes(job, s, step, t) {
        var step: Step :| Takes(job, s, step, t);
        StepKeepsInvariant(job, s, step, t);
      }
    }
  }

  lemma {:induction false} PathIsVisited(job: Job, s: State, path: seq<Url>)
    requires IsPath(job, path) && job.seed in s.visited
    requires forall page, u :: page in s.visited && page !in job.known && u in Links(job.site, page) ==> u in s.visited
    ensures path[|path| - 1] in s.visited
    decreases |path|
  {
    if |path| > 1 {
      var shorter := path[..|path| - 1];
      assert IsPath(job, shorter);
      PathIsVisited(job, s, shorter);
      assert IsLink(job.site, path[|path| - 2], path[|path| - 2 + 1]);
      LinksAreLinks(job.site, path[|path| - 2], path[|path| - 1]);
    }
  }

  lemma {:induction false} QueueIsEmpty(job: Job, s: State)
    requires Protocol(job, s) && s.phase.Finished? && Undisturbed(s) && 0 < job.workers
    ensures s.frontier.items == [] && AllReturned(s.workers) && s.channel == [] && s.writer.batch == []
  {
    assert s.workers[0].Returned?;
    ClosedMeansExhausted(job, s);
  }

  // A finished, undisturbed crawl with at least one worker has pushed, popped and
  // fetched the same pages, in the order of the queue for the first two.
  lemma {:induction false} FinishedAccounts(job: Job, s: State)
    requires Protocol(job, s) && Ledger(job, s) && s.phase.Finished? && Undisturbed(s) && 0 < job.workers
    ensures s.frontier.items == [] && s.log.popped == s.log.pushed
    ensures multiset(s.log.fetched) == multiset(s.log.pushed) == Claimed(job, s)
    ensures multiset(Delivered(s.writer.calls)) + s.log.lostRecords == multiset(s.log.pushed)
    ensures s.stats.links == |Delivered(s.writer.calls)|
  {
    QueueIsEmpty(job, s);
    FinishedFetches(s);
    FinishedClaims(job, s);
    FinishedRecords(job, s);
    FinishedLinks(s);
    hide Protocol, Ledger, Delivered;
  }

  lemma {:induction false} FinishedFetches(s: State)
    requires Fetches(s) && s.frontier.items == [] && AllReturned(s.workers)
    ensures s.log.popped == s.log.pushed && multiset(s.log.fetched) == multiset(s.log.pushed)
  {
    PoolEmpty(InFetch, s.workers);
    assert s.log.popped + [] == s.log.popped;
  }

  lemma {:induction false} FinishedClaims(job: Job, s: State)
    requires Claims(job, s) && AllReturned(s.workers) && Undisturbed(s)
    ensures multiset(s.log.pushed) == Claimed(job, s)
  {
    PoolEmpty(Won, s.workers);
  }

  lemma {:induction false} FinishedRecords(job: Job, s: State)
    requires Records(job, s) && AllReturned(s.workers) && s.channel == [] && s.writer.batch == []
    ensures multiset(Delivered(s.writer.calls)) + s.log.lostRecords == multiset(s.log.pushed)
  {
    hide Delivered;
    PoolEmpty(Unsent, s.workers);
    assert Stream(s) == Delivered(s.writer.calls);
  }

  lemma {:induction false} FinishedLinks(s: State)
    requires LinkCount(s) && AllReturned(s.workers) && Undisturbed(s) && s.channel == [] && s.writer.batch == []
    ensures s.stats.links == |Delivered(s.writer.calls)|
  {
    hide Delivered;
    SumZero(Uncounted, s.workers);
    assert Stream(s) == Delivered(s.writer.calls);
  }

  // Crawl exactness.  With at least one worker, no cancellation, no failed call, and
  // no limit or fewer pages than it, a finished crawl has pushed exactly the reachable URLs, each
  // once; its visited set is the known set plus these; and each is fetched once.
  lemma {:induction false} CrawlIsExact(job: Job, s: State)
    requires Invariant(job, s) && s.phase.Finished? && Undisturbed(s) && 0 < job.workers && Unlimited(job, s)
    ensures forall u :: u in s.log.pushed <==> Reachable(job, u)
    ensures forall u :: u in s.visited <==> u in job.known || Reachable(job, u)
    ensures multiset(s.log.fetched) == multiset(s.log.pushed)
    ensures forall u :: multiset(s.log.pushed)[u] <= 1
  {
    FinishedAccounts(job, s);
    forall u
      ensures u in s.log.pushed <==> u in s.visited && u !in job.known
      ensures multiset(s.log.pushed)[u] <= 1
    {
      assert multiset(s.log.pushed)[u] == Claimed(job, s)[u];
    }
    forall u | Reachable(job, u)
      ensures u in s.visited && u !in job.known
    {
      VisitedIsClosed(job, s);
      var path :| IsPath(job, path) && path[|path| - 1] == u;
      PathIsVisited(job, s, path);
    }
  }

  // At the end nothing is ahead any more, so the visited set is closed under links.
  lemma {:induction false} VisitedIsClosed(job: Job, s: State)
    requires Invariant(job, s) && s.phase.Finished? && Undisturbed(s) && 0 < job.workers && Unlimited(job, s)
    ensures forall page, u :: page in s.visited && page !in job.known && u in Links(job.site, page) ==> u in s.visited
  {
    FinishedAccounts(job, s);
    forall page, u | page in s.visited && page !in job.known && u in Links(job.site, page)
      ensures u in s.visited
    {
      assert multiset(s.log.fetched)[page] == Claimed(job, s)[page] == 1;
      assert Found(s, u);
    }
  }

  // The crawl fetched what it pushed, and visited exactly the known and the
  // reachable URLs.
  ghost predicate IsComplete(job: Job, s: State) {
    && multiset(s.log.fetched) == multiset(s.log.pushed)
    && (forall u :: u in s.visited <==> u in job.known || Reachable(job, u))
  }

  // Without workers nothing is ever taken or fetched.
  lemma {:induction false} NoWorkerFetchesNothing(job: Job, run: nat -> State, k: nat)
    requires IsRun(job, run) && job.workers == 0
    ensures run(k).log.popped == [] && run(k).log.fetched == []
  {
    if k > 0 {
      NoWorkerFetchesNothing(job, run, k - 1);
      RunKeepsProtocol(job, run, k - 1);
      var s, t := run(k - 1), run(k - 1 + 1);
      assert Follows(job, s, t);
      if exists step: Step :: Takes(job, s, step, t) {
        var step: Step :| Takes(job, s, step, t);
        StepWithoutWorkers(job, s, step, t);
      }
    }
  }

  lemma {:induction false} StepWithoutWorkers(job: Job, s: State, step: Step, t: State)
    requires |s.workers| == 0 && Takes(job, s, step, t)
    ensures t.log.popped == s.log.popped && t.log.fetched == s.log.fetched
  {
  }

  // A worker count of 0 is the only thing that keeps a finished, undisturbed and
  // unlimited crawl from being complete, and it does so for every new seed.
  lemma {:induction false} CompleteUnlessNoWorkers(job: Job, run: nat -> State, k: nat)
    requires IsRun(job, run) && run(k).phase.Finished? && Undisturbed(run(k)) && Unlimited(job, run(k))
    ensures IsComplete(job, run(k)) <==> 0 < job.workers || job.seed in job.known
  {
    hide Protocol, Ledger, Sound, Covered, Reachable, IsRun;
    var s := run(k);
    RunKeepsInvariant(job, run, k);
    if 0 < job.workers {
      CrawlIsExact(job, s);
    } else if job.seed in job.known {
      KnownSeedReachesNothing(job, s);
    } else {
      NoWorkerFetchesNothing(job, run, k);
      NewSeedIsPushed(job, s);
      assert multiset(s.log.pushed)[job.seed] > multiset(s.log.fetched)[job.seed];
    }
  }

  lemma {:induction false} KnownSeedReachesNothing(job: Job, s: State)
    requires Invariant(job, s) && job.seed in job.known
    ensures s.log.pushed == [] && s.log.fetched == [] && IsComplete(job, s)
  {
    assert forall u :: !Reachable(job, u);
    if s.log.pushed != [] {
      PushesAreReachable(job, s, s.log.pushed[0]);
    }
    NothingFetchedYet(s);
  }

  lemma {:induction false} NewSeedIsPushed(job: Job, s: State)
    requires Invariant(job, s) && job.workers == 0 && Undisturbed(s) && !s.phase.Seeding? && job.seed !in job.known
    ensures job.seed in s.log.pushed
  {
    assert job.seed in s.visited - job.known;
    assert Claimed(job, s)[job.seed] == 1;
    assert multiset(s.log.pushed)[job.seed] == 1;
  }

  // In any run, disturbed or not: only reachable URLs are pushed, never twice.
  lemma {:induction false} PushesAreReachable(job: Job, s: State, u: Url)
    requires Invariant(job, s)
    ensures u in s.log.pushed ==> Reachable(job, u)
    ensures multiset(s.log.pushed)[u] <= 1 && multiset(s.log.fetched)[u] <= 1
    ensures multiset(Delivered(s.writer.calls))[u] <= 1
  {
    assert multiset(s.log.pushed)[u] <= Claimed(job, s)[u] <= 1;
    assert multiset(s.log.fetched)[u] <= multiset(s.log.popped)[u] <= multiset(s.log.pushed)[u];
    StreamParts(s.writer, s.channel);
    assert multiset(Stream(s))[u] <= multiset(s.log.pushed)[u];
  }

  // Counter conservation, and the output queue: every pushed URL but the seed is
  // delivered exactly once.
  lemma {:induction false} CountersConserved(job: Job, s: State)
    requires Invariant(job, s) && s.phase.Finished? && Undisturbed(s) && 0 < job.workers && s.status.accepted
    ensures s.stats.pages + s.stats.errors == |s.log.pushed|
    ensures s.stats.links + 1 == s.stats.pages + s.stats.errors
    ensures multiset(Delivered(s.writer.calls)) + multiset{job.seed} == multiset(s.log.pushed)
  {
    FinishedAccounts(job, s);
    assert |multiset(s.log.fetched)| == |multiset(s.log.pushed)|;
    assert |multiset(Delivered(s.writer.calls)) + multiset{job.seed}| == |multiset(s.log.pushed)|;
  }
}
