// The page limit of a crawl, and what its counters count.
module CrawlLimit {
  import opened Tally
  import opened CrawlModel
  import opened CrawlProtocol
  import opened CrawlLedger
  import opened CrawlSearch

  // A page that was fetched, counted, and not tested against the limit yet.
  function Untested(w: Worker): nat {
    if w.Parsed? then 1 else 0
  }

  ghost predicate FromSource(job: Job, sources: set<Url>, u: Url) {
    exists page :: page in sources && IsLink(job.site, page, u)
  }

  // The links that a worker may still claim come from its page, before the test, and
  // from a source after it.
  ghost predicate WorkerFrom(job: Job, fetched: seq<Url>, sources: set<Url>, w: Worker) {
    && (w.Parsed? ==> w.page in fetched && w.links <= Links(job.site, w.page))
    && (w.Claiming? ==> forall u :: u in w.todo ==> FromSource(job, sources, u))
  }

  // The sources are the pages whose links were let through: all were counted, and
  // they are fewer than the limit.
  ghost predicate Limited(job: Job, s: State, sources: set<Url>) {
    && |sources| + Sum(Untested, s.workers) <= s.stats.pages
    && (job.maxPages > 0 ==> |sources| < job.maxPages)
    && (forall page :: page in sources ==> page in s.log.fetched)
    && (forall u :: u in s.visited && u !in job.known ==> u == job.seed || FromSource(job, sources, u))
    && (forall i :: 0 <= i < |s.workers| ==> WorkerFrom(job, s.log.fetched, sources, s.workers[i]))
  }

  // An act lets the links of its worker's page through.
  predicate LetsThrough(job: Job, s: State, w: Worker, act: Act) {
    act.Enter? && WorkerAfter(job, s, w, act).Claiming?
  }

  ghost function SourcesAfter(job: Job, s: State, w: Worker, act: Act, sources: set<Url>): set<Url> {
    if LetsThrough(job, s, w, act) && w.Parsed? then sources + {w.page} else sources
  }

  lemma {:induction false} MoreSources(job: Job, sources: set<Url>, more: set<Url>, u: Url)
    requires sources <= more && FromSource(job, sources, u)
    ensures FromSource(job, more, u)
  {
    var page :| page in sources && IsLink(job.site, page, u);
    assert page in more;
  }

  lemma {:induction false} ActFrom(job: Job, s: State, w: Worker, act: Act, sources: set<Url>)
    requires CanAct(job, s, w, act) && WorkerFrom(job, s.log.fetched, sources, w)
    ensures var v, t, more := WorkerAfter(job, s, w, act), SharedAfter(job, s, w, act),
                              SourcesAfter(job, s, w, act, sources);
            && WorkerFrom(job, t.log.fetched, more, v)
            && (forall u :: u in t.visited ==> u in s.visited || FromSource(job, sources, u))
            && (forall page :: page in s.log.fetched ==> page in t.log.fetched)
            && (forall page :: page in more ==> page in sources || page in s.log.fetched)
  {
    hide FromSource;
    if LetsThrough(job, s, w, act) {
      forall u | u in w.links
        ensures FromSource(job, sources + {w.page}, u)
      {
        LinkOfPage(job, sources, w.page, u);
      }
    }
  }

  lemma {:induction false} LinkOfPage(job: Job, sources: set<Url>, page: Url, u: Url)
    requires u in Links(job.site, page)
    ensures FromSource(job, sources + {page}, u)
  {
    LinksAreLinks(job.site, page, u);
    assert page in sources + {page};
  }

  // What an act does to the counts: only a page that is still below the limit is let
  // through.
  lemma {:induction false} ActCounts(job: Job, s: State, w: Worker, act: Act, sources: set<Url>)
    requires CanAct(job, s, w, act)
    ensures var v, t, more := WorkerAfter(job, s, w, act), SharedAfter(job, s, w, act),
                              SourcesAfter(job, s, w, act, sources);
            && |more| + Untested(v) + s.stats.pages <= |sources| + Untested(w) + t.stats.pages
            && (job.maxPages > 0 && more != sources ==> s.stats.pages < job.maxPages)
  {
    hide Links, FetchFails;
  }

  lemma {:induction false} WorkKeepsLimit(job: Job, s: State, i: nat, act: Act, t: State, sources: set<Url>)
    requires Limited(job, s, sources) && Takes(job, s, Work(i, act), t)
    ensures Limited(job, t, SourcesAfter(job, s, s.workers[i], act, sources))
  {
    var w := s.workers[i];
    var v, more := WorkerAfter(job, s, w, act), SourcesAfter(job, s, w, act, sources);
    ActFrom(job, s, w, act, sources);
    ActCounts(job, s, w, act, sources);
    SumUpdate(Untested, s.workers, i, v);
    SumCovers(Untested, s.workers, i);
    TestedBelow(job, s, w, act);
    WorkKeepsSources(job, s, i, v, t, sources, more);
  }

  lemma {:induction false} TestedBelow(job: Job, s: State, w: Worker, act: Act)
    requires CanAct(job, s, w, act)
    ensures LetsThrough(job, s, w, act) ==> Untested(w) == 1
  {
  }

  // A worker's own step.
  lemma {:induction false} WorkKeepsSources(job: Job, s: State, i: nat, v: Worker, t: State, sources: set<Url>,
                                            more: set<Url>)
    requires Limited(job, s, sources) && i < |s.workers| && t.workers == s.workers[i := v] && sources <= more
    requires |more| + Sum(Untested, t.workers) <= t.stats.pages && (job.maxPages > 0 ==> |more| < job.maxPages)
    requires WorkerFrom(job, t.log.fetched, more, v)
    requires forall u :: u in t.visited ==> u in s.visited || FromSource(job, sources, u)
    requires forall page :: page in s.log.fetched ==> page in t.log.fetched
    requires forall page :: page in more ==> page in sources || page in s.log.fetched
    ensures Limited(job, t, more)
  {
    hide FromSource, Sum;
    forall u | FromSource(job, sources, u)
      ensures FromSource(job, more, u)
    {
      MoreSources(job, sources, more, u);
    }
    forall k | 0 <= k < |t.workers|
      ensures WorkerFrom(job, t.log.fetched, more, t.workers[k])
    {
      assert k != i ==> WorkerFrom(job, s.log.fetched, sources, s.workers[k]);
    }
  }

  // Steps that fetch nothing, claim at most the seed, and let nothing through.
  lemma {:induction false} QuietKeepsLimit(job: Job, s: State, t: State, sources: set<Url>)
    requires Limited(job, s, sources) && |t.workers| == |s.workers| && t.stats == s.stats
    requires t.log.fetched == s.log.fetched && t.visited <= s.visited + {job.seed}
    requires forall k :: 0 <= k < |s.workers| ==> SameLinks(s.workers[k], t.workers[k])
    ensures Limited(job, t, sources)
  {
    hide FromSource;
    SumSame(Untested, s.workers, t.workers);
    forall k | 0 <= k < |t.workers|
      ensures WorkerFrom(job, t.log.fetched, sources, t.workers[k])
    {
      assert WorkerFrom(job, s.log.fetched, sources, s.workers[k]) && SameLinks(s.workers[k], t.workers[k]);
    }
  }

  predicate SameLinks(w: Worker, v: Worker) {
    && Untested(w) == Untested(v)
    && (v.Parsed? || v.Claiming? ==> v == w)
  }

  lemma {:induction false} StepIsQuiet(job: Job, s: State, step: Step, t: State)
    requires Takes(job, s, step, t) && !step.Work?
    ensures |t.workers| == |s.workers| && t.stats == s.stats && t.log.fetched == s.log.fetched
    ensures t.visited <= s.visited + {job.seed}
    ensures forall k :: 0 <= k < |s.workers| ==> SameLinks(s.workers[k], t.workers[k])
  {
    if step.TryPop? || step.PushOne? || step.PageDone? {
      QueueStepIsQuiet(job, s, step, t);
      QueueKeepsLinks(job, s, step, t);
    } else if step.Seed? {
      SeedIsQuiet(job, s, step.outcome, t);
    } else {
      OtherStepIsQuiet(job, s, step, t);
      OthersKeepLinks(job, s, step, t);
    }
  }

  lemma {:induction false} SeedIsQuiet(job: Job, s: State, outcome: SeedOutcome, t: State)
    requires Takes(job, s, Seed(outcome), t)
    ensures t.workers == s.workers && t.stats == s.stats && t.log.fetched == s.log.fetched
    ensures t.visited <= s.visited + {job.seed}
  {
  }

  lemma {:induction false} QueueKeepsLinks(job: Job, s: State, step: Step, t: State)
    requires Takes(job, s, step, t) && (step.TryPop? || step.PushOne? || step.PageDone?) && |t.workers| == |s.workers|
    ensures forall k :: 0 <= k < |s.workers| ==> SameLinks(s.workers[k], t.workers[k])
  {
  }

  lemma {:induction false} OthersKeepLinks(job: Job, s: State, step: Step, t: State)
    requires Takes(job, s, step, t) && |t.workers| == |s.workers|
    requires step.Receive? || step.CloseOnCancel? || step.CloseChannel? || step.FlushRest? || step.Cancel?
    ensures forall k :: 0 <= k < |s.workers| ==> SameLinks(s.workers[k], t.workers[k])
  {
  }

  // In every state of every run: all pages let through were counted and fetched, they
  // are fewer than the limit, and every URL claimed, hence every one pushed, is the
  // seed or a link of one of them.
  lemma {:induction false} RunKeepsLimit(job: Job, run: nat -> State, k: nat) returns (sources: set<Url>)
    requires IsRun(job, run)
    ensures Limited(job, run(k), sources)
  {
    if k == 0 {
      sources := {};
      SumZero(Untested, run(0).workers);
    } else {
      sources := RunKeepsLimit(job, run, k - 1);
      hide Limited, Takes;
      var s, t := run(k - 1), run(k - 1 + 1);
      assert Follows(job, s, t);
      if exists step: Step :: Takes(job, s, step, t) {
        var step: Step :| Takes(job, s, step, t);
        sources := StepKeepsLimit(job, s, step, t, sources);
      }
    }
  }

  lemma {:induction false} StepKeepsLimit(job: Job, s: State, step: Step, t: State, sources: set<Url>)
    returns (more: set<Url>)
    requires Limited(job, s, sources) && Takes(job, s, step, t)
    ensures Limited(job, t, more)
  {
    if step.Work? {
      more := SourcesAfter(job, s, s.workers[step.i], step.act, sources);
      WorkKeepsLimit(job, s, step.i, step.act, t, sources);
    } else {
      more := sources;
      StepIsQuiet(job, s, step, t);
      QuietKeepsLimit(job, s, t, sources);
    }
  }

  // With a limit of M pages: every URL pushed is the seed or a link of one of at most
  // M - 1 fetched pages, whatever the interleaving.
  lemma {:induction false} LimitBoundsSources(job: Job, run: nat -> State, k: nat) returns (sources: set<Url>)
    requires IsRun(job, run) && job.maxPages > 0
    ensures |sources| <= job.maxPages - 1
    ensures forall page :: page in sources ==> page in run(k).log.fetched
    ensures forall u :: u in run(k).log.pushed ==>
              u == job.seed || exists page :: page in sources && IsLink(job.site, page, u)
  {
    sources := RunKeepsLimit(job, run, k);
    RunKeepsInvariant(job, run, k);
    hide IsLink, Protocol, Sound, Covered;
    forall u | u in run(k).log.pushed
      ensures u == job.seed || exists page :: page in sources && IsLink(job.site, page, u)
    {
      PushedIsNew(job, run(k), u);
      assert FromSource(job, sources, u) || u == job.seed;
    }
  }

  lemma {:induction false} PushedIsNew(job: Job, s: State, u: Url)
    requires Claims(job, s) && u in s.log.pushed
    ensures u in s.visited && u !in job.known
  {
    assert multiset(s.log.pushed)[u] <= Claimed(job, s)[u];
  }

  // The fetched pages for which the site answers with an error.
  function Failing(job: Job, pages: seq<Url>): nat {
    if pages == [] then 0
    else
      var last := pages[|pages| - 1];
      Failing(job, pages[..|pages| - 1]) + if job.site.fetch(last).FetchError? then 1 else 0
  }

  // Every failing page is counted as an error, and without cancellation nothing else
  // is; the channel holds at most two batches, or one record for the writer's hand.
  ghost predicate Counted(job: Job, s: State) {
    && Failing(job, s.log.fetched) <= s.stats.errors
    && (!s.status.cancelled ==> s.stats.errors == Failing(job, s.log.fetched))
    && |s.channel| <= if job.batchSize == 0 then 1 else 2 * job.batchSize
  }

  lemma {:induction false} FailingSnoc(job: Job, pages: seq<Url>, page: Url)
    ensures Failing(job, pages + [page]) == Failing(job, pages) + if job.site.fetch(page).FetchError? then 1 else 0
  {
    assert (pages + [page])[..|pages|] == pages;
  }

  lemma {:induction false} StepKeepsCounted(job: Job, s: State, step: Step, t: State)
    requires Counted(job, s) && Takes(job, s, step, t)
    ensures Counted(job, t)
  {
    if step.Work? {
      ActKeepsCounted(job, s, s.workers[step.i], step.act);
    } else {
      hide Failing;
    }
  }

  lemma {:induction false} ActKeepsCounted(job: Job, s: State, w: Worker, act: Act)
    requires Counted(job, s) && CanAct(job, s, w, act)
    ensures Counted(job, SharedAfter(job, s, w, act))
  {
    if act.Fetch? {
      FailingSnoc(job, s.log.fetched, w.page);
    }
    hide Failing;
  }

  // The counters of every state of every run.
  lemma {:induction false} RunKeepsCounted(job: Job, run: nat -> State, k: nat)
    requires IsRun(job, run)
    ensures Counted(job, run(k))
    ensures !run(k).status.cancelled ==>
      run(k).stats.pages + Failing(job, run(k).log.fetched) == |run(k).log.fetched|
  {
    RunKeepsInvariant(job, run, k);
    hide Counted, Takes, Protocol, Claims, Records, Sound, Covered;
    if k == 0 {
      CountsStart(job);
    } else {
      RunKeepsCounted(job, run, k - 1);
      var s, t := run(k - 1), run(k - 1 + 1);
      assert Follows(job, s, t);
      if exists step: Step :: Takes(job, s, step, t) {
        var step: Step :| Takes(job, s, step, t);
        StepKeepsCounted(job, s, step, t);
      }
    }
    CountsErrors(job, run(k));
  }

  lemma {:induction false} CountsStart(job: Job)
    ensures Counted(job, Start(job))
  {
  }

  lemma {:induction false} CountsErrors(job: Job, s: State)
    requires Counted(job, s)
    ensures !s.status.cancelled ==> s.stats.errors == Failing(job, s.log.fetched)
  {
  }
}
