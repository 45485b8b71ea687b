// `crawl` of services/mapper/main.go as a step system: N workers, a writer, the
// goroutine that closes the frontier on cancellation, and the main goroutine
// take turns in any order.  A step is one critical section, one Redis command,
// one channel operation, or one local move that nobody else can observe.
module CrawlModel {
  import opened Wrappers
  import opened Frontier
  import opened OutputWriter
  import opened Tally

  datatype Url = Url(raw: string)

  datatype Fetched = FetchError | Hrefs(hrefs: seq<string>)

  // What the network and the URL rules answer: fetchLinks, normalizeURL with a
  // base page, and sameDomain.
  datatype Site = Site(fetch: Url -> Fetched, normalize: (string, Url) -> Option<Url>, sameDomain: Url -> bool)

  // `known` is the visited set in Redis before the crawl.
  datatype Job = Job(site: Site, seed: Url, known: set<Url>, workers: nat, maxPages: int, batchSize: nat)

  datatype Worker =
    | AtPop                                                  // about to take the queue lock in pop
    | Asleep                                                 // in cond.Wait
    | Signalled                                              // woken, lock not taken again yet
    | Fetching(page: Url)
    | Parsed(page: Url, links: set<Url>)                     // candidates filtered, addURLs not entered
    | Claiming(page: Url, todo: set<Url>, won: set<Url>)     // one SADD at a time
    | Pushing(page: Url, todo: set<Url>, added: set<Url>)    // one frontier.push at a time
    | Sending(page: Url, todo: set<Url>, total: nat)         // one channel send at a time
    | Finishing(page: Url, leaving: bool)                    // about to call frontier.done
    | Returned

  datatype Phase = Seeding | Crawling | Draining | Finished

  // `cancelled`: the context is done; `closerDone`: the goroutine waiting for
  // that has closed the frontier; `faulted`: a Redis or Postgres call has failed;
  // `accepted`: addURL answered true for the seed.
  datatype Status = Status(cancelled: bool, closerDone: bool, faulted: bool, accepted: bool)

  // crawlStats.
  datatype Stats = Stats(pages: nat, errors: nat, links: nat)

  // History, read by no step: the URLs accepted by push, taken by pop and
  // returned by fetchLinks, in order; those claimed in Redis and then never
  // pushed; those pushed and then never delivered to the output queue.
  datatype Log = Log(
    pushed: seq<Url>, popped: seq<Url>, fetched: seq<Url>,
    lostClaims: multiset<Url>, lostRecords: multiset<Url>)

  datatype State = State(
    phase: Phase,
    workers: seq<Worker>,
    frontier: Queue<Url>,
    visited: set<Url>,
    status: Status,
    stats: Stats,
    channel: seq<Url>,
    writer: Writer<Url>,
    log: Log)

  datatype SeedOutcome =
    | SeedAccepted                    // claimed, pushed, stored
    | SeedKnown                       // SADD answered 0
    | SeedClaimFails(applied: bool)   // the pipeline failed, before or after Redis applied it
    | SeedStoreFails                  // claimed and pushed, then Postgres failed

  // What a worker does between taking a page and calling `done` for it, but for
  // the pushes.
  datatype Act =
    | Fetch(aborted: bool)            // `aborted`: the context ended the request
    | Enter                           // addURLs, up to its pipeline
    | Claim(u: Url)
    | ClaimsFail
    | ClaimsEnd
    | Store(ok: bool)
    | Send(u: Url)
    | SendAborted
    | SendsEnd

  datatype Step =
    | Seed(outcome: SeedOutcome)
    | TryPop(i: nat)
    | Work(i: nat, act: Act)
    | PushOne(i: nat, u: Url, sleeper: nat)   // `sleeper`: whom cond.Signal wakes
    | PageDone(i: nat)
    | Receive(ok: bool)
    | CloseOnCancel
    | CloseChannel
    | FlushRest(ok: bool)
    | Cancel                          // the environment's only step

  // The same-domain links of a page, as the map `unique` holds them.
  function Links(site: Site, page: Url): set<Url> {
    match site.fetch(page)
    case FetchError => {}
    case Hrefs(hrefs) =>
      set href | href in hrefs && site.normalize(href, page).Some? && site.sameDomain(site.normalize(href, page).value)
        :: site.normalize(href, page).value
  }

  // A buffered channel of twice the batch size; for an unbuffered one the one
  // slot is the writer's hand.
  function Capacity(job: Job): nat {
    if job.batchSize == 0 then 1 else 2 * job.batchSize
  }

  function Start(job: Job): State {
    State(Seeding, seq(job.workers, _ => AtPop), EmptyQueue(), job.known, Status(false, false, false, false),
          Stats(0, 0, 0), [], NewWriter(), Log([], [], [], multiset{}, multiset{}))
  }

  // cond.Broadcast.
  function WakeAll(ws: seq<Worker>): (woken: seq<Worker>)
    ensures |woken| == |ws|
    ensures forall i :: 0 <= i < |ws| ==> woken[i] == if ws[i].Asleep? then Signalled else ws[i]
  {
    seq(|ws|, i requires 0 <= i < |ws| => if ws[i].Asleep? then Signalled else ws[i])
  }

  // cond.Signal: one sleeper, if there is one.
  function Signal(ws: seq<Worker>, sleeper: nat): (woken: seq<Worker>)
    ensures |woken| == |ws|
  {
    if sleeper < |ws| && ws[sleeper].Asleep? then ws[sleeper := Signalled] else ws
  }

  ghost predicate SomeAsleep(ws: seq<Worker>) {
    exists i :: 0 <= i < |ws| && ws[i].Asleep?
  }

  ghost predicate AllReturned(ws: seq<Worker>) {
    forall i :: 0 <= i < |ws| ==> ws[i].Returned?
  }

  // Which steps a state allows.
  ghost predicate Enabled(job: Job, s: State, step: Step) {
    match step
    case Seed(outcome) =>
      && s.phase.Seeding?
      && (outcome.SeedAccepted? || outcome.SeedStoreFails? ==> job.seed !in s.visited)
      && (outcome.SeedKnown? ==> job.seed in s.visited)
    case TryPop(i) => Runs(s, i) && (s.workers[i].AtPop? || s.workers[i].Signalled?)
    case Work(i, act) => Runs(s, i) && CanAct(job, s, s.workers[i], act)
    case PushOne(i, u, sleeper) =>
      && Runs(s, i) && s.workers[i].Pushing? && u in s.workers[i].todo
      && (SomeAsleep(s.workers) ==> sleeper < |s.workers| && s.workers[sleeper].Asleep?)
    case PageDone(i) => Runs(s, i) && s.workers[i].Finishing?
    case Receive(ok) => (s.phase.Crawling? || s.phase.Draining?) && s.channel != []
    case CloseOnCancel => s.phase.Crawling? && s.status.cancelled && !s.status.closerDone
    case CloseChannel => s.phase.Crawling? && AllReturned(s.workers)
    case FlushRest(ok) => s.phase.Draining? && s.channel == []
    case Cancel => !s.phase.Finished? && !s.status.cancelled
  }

  predicate CanAct(job: Job, s: State, w: Worker, act: Act) {
    match act
    case Fetch(aborted) => w.Fetching? && (aborted ==> s.status.cancelled)
    case Enter => w.Parsed?
    case Claim(u) => w.Claiming? && u in w.todo
    case ClaimsFail => w.Claiming?
    case ClaimsEnd => w.Claiming? && w.todo == {}
    case Store(ok) => w.Pushing? && w.todo == {}
    case Send(u) => w.Sending? && u in w.todo && |s.channel| < Capacity(job)
    case SendAborted => w.Sending? && w.todo != {} && s.status.cancelled
    case SendsEnd => w.Sending? && w.todo == {}
  }

  ghost predicate Runs(s: State, i: nat) {
    s.phase.Crawling? && i < |s.workers|
  }

  function SeedEffect(job: Job, s: State, outcome: SeedOutcome): State {
    match outcome
    case SeedKnown => s.(phase := Crawling, frontier := ClosedQueue(s.frontier))
    case SeedClaimFails(applied) =>
      var claims := applied && job.seed !in s.visited;
      s.(phase := Crawling, frontier := ClosedQueue(s.frontier), status := s.status.(faulted := true),
         visited := if claims then s.visited + {job.seed} else s.visited,
         log := if claims then s.log.(lostClaims := s.log.lostClaims + multiset{job.seed}) else s.log)
    case SeedAccepted =>
      s.(phase := Crawling, frontier := Pushed(s.frontier, job.seed), status := s.status.(accepted := true),
         visited := s.visited + {job.seed}, log := SeedLogged(job, s.log))
    case SeedStoreFails =>
      s.(phase := Crawling, frontier := ClosedQueue(Pushed(s.frontier, job.seed)), status := s.status.(faulted := true),
         visited := s.visited + {job.seed}, log := SeedLogged(job, s.log))
  }

  // The seed's record is dropped by addURL.
  function SeedLogged(job: Job, log: Log): Log {
    log.(pushed := log.pushed + [job.seed], lostRecords := log.lostRecords + multiset{job.seed})
  }

  function Put(s: State, i: nat, w: Worker): State {
    if i < |s.workers| then s.(workers := s.workers[i := w]) else s
  }

  function PopEffect(s: State, i: nat): State
    requires i < |s.workers|
  {
    match PopDecision(s.frontier)
    case Took(page) => Put(s, i, Fetching(page)).(frontier := AfterPop(s.frontier),
                                                  log := s.log.(popped := s.log.popped + [page]))
    case Drained => Put(s, i, Returned)
    case MustWait => Put(s, i, Asleep)
  }

  // A fetch fails when the site answers with an error, or when it is aborted.
  predicate FetchFails(job: Job, page: Url, aborted: bool) {
    aborted || job.site.fetch(page).FetchError?
  }

  // The acting worker's own next state.
  function WorkerAfter(job: Job, s: State, w: Worker, act: Act): Worker {
    match (w, act)
    case (Fetching(page), Fetch(aborted)) =>
      if FetchFails(job, page, aborted) then Finishing(page, false) else Parsed(page, Links(job.site, page))
    case (Parsed(page, links), Enter) =>
      // Nothing to add, or the page limit is reached.
      if links == {} || (job.maxPages > 0 && s.stats.pages >= job.maxPages) then Finishing(page, false)
      else Claiming(page, links, {})
    case (Claiming(page, todo, won), Claim(u)) =>
      Claiming(page, todo - {u}, if u in s.visited then won else won + {u})
    case (Claiming(page, _, _), ClaimsFail) => Finishing(page, false)
    case (Claiming(page, _, won), ClaimsEnd) =>
      if won == {} then Finishing(page, false) else Pushing(page, won, {})
    case (Pushing(page, _, added), Store(ok)) =>
      if added != {} && ok then Sending(page, added, |added|) else Finishing(page, false)
    case (Sending(page, todo, total), Send(u)) => Sending(page, todo - {u}, total)
    case (Sending(page, _, _), SendAborted) => Finishing(page, true)
    case (Sending(page, _, _), SendsEnd) => Finishing(page, false)
    case _ => w
  }

  // What the act changes beside the worker.
  function SharedAfter(job: Job, s: State, w: Worker, act: Act): State {
    match (w, act)
    case (Fetching(page), Fetch(aborted)) =>
      if FetchFails(job, page, aborted) then
        s.(stats := s.stats.(errors := s.stats.errors + 1), log := s.log.(fetched := s.log.fetched + [page]))
      else s.(stats := s.stats.(pages := s.stats.pages + 1), log := s.log.(fetched := s.log.fetched + [page]))
    case (Claiming(_, _, _), Claim(u)) => s.(visited := s.visited + {u})
    case (Claiming(_, _, won), ClaimsFail) =>
      s.(status := s.status.(faulted := true), log := s.log.(lostClaims := s.log.lostClaims + multiset(won)))
    case (Pushing(_, _, added), Store(ok)) =>
      // upsertURLs is not called when nothing was added.
      if added == {} || ok then s
      else s.(status := s.status.(faulted := true), log := s.log.(lostRecords := s.log.lostRecords + multiset(added)))
    case (Sending(_, _, _), Send(u)) => s.(channel := s.channel + [u])
    case (Sending(_, todo, _), SendAborted) => s.(log := s.log.(lostRecords := s.log.lostRecords + multiset(todo)))
    case (Sending(_, _, total), SendsEnd) => s.(stats := s.stats.(links := s.stats.links + total))
    case _ => s
  }

  function PushEffect(s: State, i: nat, u: Url, sleeper: nat): State
    requires i < |s.workers|
  {
    match s.workers[i]
    case Pushing(page, todo, added) =>
      if s.frontier.closed then
        Put(s, i, Pushing(page, todo - {u}, added)).(log := s.log.(lostClaims := s.log.lostClaims + multiset{u}))
      else
        var moved := Put(s, i, Pushing(page, todo - {u}, added + {u}));
        moved.(workers := Signal(moved.workers, sleeper), frontier := Pushed(s.frontier, u),
               log := s.log.(pushed := s.log.pushed + [u]))
    case _ => s
  }

  function DoneEffect(s: State, i: nat): State
    requires i < |s.workers|
  {
    match s.workers[i]
    case Finishing(_, leaving) =>
      var moved := Put(s, i, if leaving then Returned else AtPop);
      var after := AfterDone(s.frontier);
      moved.(frontier := after, workers := if after.outstanding == 0 then WakeAll(moved.workers) else moved.workers)
    case _ => s
  }

  // What the writer loses when the flush of `w` fails.
  function LostByFlush(w: Writer<Url>, ok: bool): multiset<Url> {
    if ok then multiset{} else multiset(w.batch)
  }

  function ReceiveEffect(job: Job, s: State, ok: bool): State
    requires s.channel != []
  {
    var u := s.channel[0];
    var fuller := s.writer.(batch := s.writer.batch + [u]);
    var lost := if |fuller.batch| >= job.batchSize then LostByFlush(fuller, ok) else multiset{};
    s.(channel := s.channel[1..], writer := Received(s.writer, u, job.batchSize, ok),
       status := s.status.(faulted := s.status.faulted || lost != multiset{}),
       log := s.log.(lostRecords := s.log.lostRecords + lost))
  }

  function FlushEffect(s: State, ok: bool): State {
    var lost := LostByFlush(s.writer, ok);
    s.(phase := Finished, writer := Flushed(s.writer, ok),
       status := s.status.(faulted := s.status.faulted || lost != multiset{}),
       log := s.log.(lostRecords := s.log.lostRecords + lost))
  }

  // The state after a step that is enabled.
  function Apply(job: Job, s: State, step: Step): State {
    match step
    case Seed(outcome) => SeedEffect(job, s, outcome)
    case TryPop(i) => if i < |s.workers| then PopEffect(s, i) else s
    case Work(i, act) => if i < |s.workers| then WorkEffect(job, s, i, act) else s
    case PushOne(i, u, sleeper) => if i < |s.workers| then PushEffect(s, i, u, sleeper) else s
    case PageDone(i) => if i < |s.workers| then DoneEffect(s, i) else s
    case Receive(ok) => if s.channel != [] then ReceiveEffect(job, s, ok) else s
    case CloseOnCancel => s.(frontier := ClosedQueue(s.frontier), workers := WakeAll(s.workers),
                             status := s.status.(closerDone := true))
    case CloseChannel => s.(phase := Draining)
    case FlushRest(ok) => FlushEffect(s, ok)
    case Cancel => s.(status := s.status.(cancelled := true))
  }

  function WorkEffect(job: Job, s: State, i: nat, act: Act): State
    requires i < |s.workers|
  {
    SharedAfter(job, s, s.workers[i], act).(workers := s.workers[i := WorkerAfter(job, s, s.workers[i], act)])
  }

  ghost predicate Takes(job: Job, s: State, step: Step, t: State) {
    Enabled(job, s, step) && t == Apply(job, s, step)
  }

  // No goroutine of the crawl can move.
  ghost predicate Stuck(job: Job, s: State) {
    forall step: Step :: Enabled(job, s, step) ==> step.Cancel?
  }

  // A maximal run: every state follows by a step, and the run only rests when
  // no goroutine can move.  The context may be cancelled at any point, or never.
  ghost predicate Follows(job: Job, s: State, t: State) {
    || (exists step: Step :: Takes(job, s, step, t))
    || (Stuck(job, s) && t == s)
  }

  ghost predicate IsRun(job: Job, run: nat -> State) {
    run(0) == Start(job) && forall k: nat :: Follows(job, run(k), run(k + 1))
  }

  ghost predicate Undisturbed(s: State) {
    !s.status.cancelled && !s.status.faulted
  }
}
