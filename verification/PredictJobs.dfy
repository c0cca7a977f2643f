/**
  Prediction jobs over the API, the broker, the workers and the result cache, as interleaved steps of any
  number of jobs, workers and polls.
  */
module PredictJobs {
  import opened Options
  import Retry

  type Job = nat
  type WorkerId = nat

  /** What the cache holds for a job. */
  datatype Result = Pending | Failed | Completed(flowId: string, alertId: int)

  datatype Answer = NotFound | Found(result: Result)

  datatype Poll = Poll(job: Job, answer: Answer) {
    predicate Terminal() {
      answer.Found? && !answer.result.Pending?
    }

    predicate StillPending() {
      answer == Found(Pending)
    }
  }

  /** Where the request handler of a job is: pending stored, publish raised, or finished, perhaps by an exception. */
  datatype Api = Stored | PublishRaised | Finished

  /** Where a worker is with a message; Retrying is between two attempts of the retry loop. */
  datatype Phase = Taken | Persisted(alertId: int) | Failing | Acking | Retrying

  datatype Handling = Handling(job: Job, attempt: nat, phase: Phase)

  /** Committed rows map their id to their flow; verdicts remember the last terminal result written for a job. */
  datatype State = State(
    maxRetries: int,
    flows: map<Job, string>,
    api: map<Job, Api>,
    queue: set<Job>,
    workers: map<WorkerId, Handling>,
    rows: map<int, string>,
    cache: map<Job, Result>,
    verdicts: map<Job, Result>,
    polls: seq<Poll>)

  /** The beginning, when n attempts at each message are configured. */
  function Start(n: int): State {
    State(n, map[], map[], {}, map[], map[], map[], map[], [])
  }

  // ------------------------------------------------------------------------ steps

  /**
    Steps that touch the broker can raise after having taken effect: `added`, `stored` and `raises` say so. A
    step that raises without effect is the failing step alone.
    */
  datatype Event =
    | Submit(job: Job, flowId: string)
    | SubmitRaises(job: Job, flowId: string, stored: bool)
    | Publish(job: Job)
    | PublishRaises(job: Job, added: bool)
    | ApiStoresFailed(job: Job)
    | ApiStoreRaises(job: Job, stored: bool)
    | Take(worker: WorkerId, job: Job)
    | Undecodable(worker: WorkerId)
    | Persist(worker: WorkerId, alertId: int)
    | Fail(worker: WorkerId)
    | StoreCompleted(worker: WorkerId, raises: bool)
    | StoreFailed(worker: WorkerId, raises: bool)
    | StoreFailedRaises(worker: WorkerId)
    | Ack(worker: WorkerId, acked: bool)
    | TryAgain(worker: WorkerId)
    | GiveUp(worker: WorkerId)
    | Crash(worker: WorkerId)
    | Expire(job: Job)
    | Ask(job: Job)

  /** No attempt is left in the retry loop. */
  predicate Exhausted(h: Handling, maxRetries: int) {
    h.attempt >= Retry.Budget(maxRetries)
  }

  predicate Busy(s: State, w: WorkerId) {
    w in s.workers && s.workers[w].job in s.flows
  }

  predicate Enabled(s: State, e: Event) {
    match e
    case Submit(job, _) => job !in s.flows
    case SubmitRaises(job, _, _) => job !in s.flows
    case Publish(job) => job in s.api && s.api[job] == Stored
    case PublishRaises(job, _) => job in s.api && s.api[job] == Stored
    case ApiStoresFailed(job) => job in s.api && s.api[job] == PublishRaised
    case ApiStoreRaises(job, _) => job in s.api && s.api[job] == PublishRaised
    case Take(w, job) => w !in s.workers && job in s.queue
    case Undecodable(w) => Busy(s, w) && s.workers[w].phase == Taken
    case Persist(w, id) => Busy(s, w) && s.workers[w].phase == Taken && id !in s.rows
    case Fail(w) => Busy(s, w) && (s.workers[w].phase == Taken || s.workers[w].phase.Persisted?)
    case StoreCompleted(w, _) => Busy(s, w) && s.workers[w].phase.Persisted?
    case StoreFailed(w, _) => Busy(s, w) && s.workers[w].phase == Failing
    case StoreFailedRaises(w) => Busy(s, w) && s.workers[w].phase == Failing
    case Ack(w, _) => Busy(s, w) && s.workers[w].phase == Acking
    case TryAgain(w) => Busy(s, w) && s.workers[w].phase == Retrying && !Exhausted(s.workers[w], s.maxRetries)
    case GiveUp(w) => Busy(s, w) && s.workers[w].phase == Retrying && Exhausted(s.workers[w], s.maxRetries)
    case Crash(w) => w in s.workers
    case Expire(job) => job in s.cache
    case Ask(_) => true
  }

  /** What a poll is answered. */
  function Look(cache: map<Job, Result>, job: Job): Answer {
    if job in cache then Found(cache[job]) else NotFound
  }

  function Write(s: State, job: Job, r: Result): State {
    s.(cache := s.cache[job := r], verdicts := s.verdicts[job := r])
  }

  function Enter(s: State, w: WorkerId, phase: Phase): State
    requires w in s.workers
  {
    s.(workers := s.workers[w := s.workers[w].(phase := phase)])
  }

  function Apply(s: State, e: Event): State
    requires Enabled(s, e)
  {
    match e
    case Submit(job, flowId) =>
      s.(flows := s.flows[job := flowId], api := s.api[job := Stored], cache := s.cache[job := Pending])
    case SubmitRaises(job, flowId, stored) =>
      s.(flows := s.flows[job := flowId], api := s.api[job := Finished],
         cache := if stored then s.cache[job := Pending] else s.cache)
    case Publish(job) => s.(api := s.api[job := Finished], queue := s.queue + {job})
    case PublishRaises(job, added) =>
      s.(api := s.api[job := PublishRaised], queue := if added then s.queue + {job} else s.queue)
    case ApiStoresFailed(job) => Write(s, job, Failed).(api := s.api[job := Finished])
    case ApiStoreRaises(job, stored) =>
      (if stored then Write(s, job, Failed) else s).(api := s.api[job := Finished])
    case Take(w, job) => s.(queue := s.queue - {job}, workers := s.workers[w := Handling(job, 1, Taken)])
    case Undecodable(w) => Enter(s, w, Retrying)
    case Persist(w, id) => Enter(s, w, Persisted(id)).(rows := s.rows[id := s.flows[s.workers[w].job]])
    case Fail(w) => Enter(s, w, Failing)
    case StoreCompleted(w, raises) =>
      var job := s.workers[w].job;
      Enter(Write(s, job, Completed(s.flows[job], s.workers[w].phase.alertId)), w, if raises then Failing else Acking)
    case StoreFailed(w, raises) =>
      Enter(Write(s, s.workers[w].job, Failed), w, if raises then Retrying else Acking)
    case StoreFailedRaises(w) => Enter(s, w, Retrying)
    case Ack(w, acked) => if acked then s.(workers := s.workers - {w}) else Enter(s, w, Retrying)
    case TryAgain(w) => s.(workers := s.workers[w := Handling(s.workers[w].job, s.workers[w].attempt + 1, Taken)])
    case GiveUp(w) => s.(workers := s.workers - {w})
    case Crash(w) => s.(workers := s.workers - {w})
    case Expire(job) => s.(cache := s.cache - {job})
    case Ask(job) => s.(polls := s.polls + [Poll(job, Look(s.cache, job))])
  }

  /** Events that can happen one after another, and where they lead. */
  ghost predicate Possible(s: State, events: seq<Event>)
    decreases |events|, 0
  {
    events == []
    || (Possible(s, events[..|events| - 1]) && Enabled(Reached(s, events[..|events| - 1]), events[|events| - 1]))
  }

  ghost function Reached(s: State, events: seq<Event>): State
    requires Possible(s, events)
    decreases |events|, 1
  {
    if events == [] then s else Apply(Reached(s, events[..|events| - 1]), events[|events| - 1])
  }

  lemma {:induction false} PossibleOneMore(s: State, events: seq<Event>, e: Event)
    requires Possible(s, events) && Enabled(Reached(s, events), e)
    ensures Possible(s, events + [e]) && Reached(s, events + [e]) == Apply(Reached(s, events), e)
  {
    assert (events + [e])[..|events|] == events;
  }

  // -------------------------------------------------- a terminal answer never reverts

  /** Nobody is told "pending" after having been told a terminal status, and the cache cannot make it happen. */
  ghost predicate NeverReverts(s: State) {
    && (forall i, j | 0 <= i < j < |s.polls| && s.polls[i].job == s.polls[j].job && s.polls[i].Terminal() ::
          !s.polls[j].StillPending())
    && (forall i | 0 <= i < |s.polls| && s.polls[i].Terminal() ::
          && s.polls[i].job in s.flows
          && (s.polls[i].job in s.cache ==> s.cache[s.polls[i].job] != Pending))
    && (forall job | job in s.cache :: job in s.flows)
    && (forall job | job in s.api :: job in s.flows)
    && (forall job | job in s.queue :: job in s.flows)
  }

  lemma {:induction false} AskNeverReverts(s: State, job: Job)
    requires NeverReverts(s)
    ensures NeverReverts(Apply(s, Ask(job)))
  {
  }

  lemma {:induction false} SubmitNeverReverts(s: State, e: Event)
    requires NeverReverts(s) && Enabled(s, e) && (e.Submit? || e.SubmitRaises?)
    ensures NeverReverts(Apply(s, e))
  {
  }

  lemma {:induction false} WriteNeverReverts(s: State, job: Job, r: Result)
    requires NeverReverts(s) && job in s.flows && r != Pending
    ensures NeverReverts(Write(s, job, r))
  {
  }

  lemma {:induction false} ApiNeverReverts(s: State, e: Event)
    requires NeverReverts(s) && Enabled(s, e)
    requires e.Publish? || e.PublishRaises? || e.ApiStoresFailed? || e.ApiStoreRaises?
    ensures NeverReverts(Apply(s, e))
  {
    if e.ApiStoresFailed? || e.ApiStoreRaises? {
      WriteNeverReverts(s, e.job, Failed);
    }
  }

  lemma {:induction false} WorkerNeverReverts(s: State, e: Event)
    requires NeverReverts(s) && Enabled(s, e) && (e.StoreCompleted? || e.StoreFailed?)
    ensures NeverReverts(Apply(s, e))
  {
    var job := s.workers[e.worker].job;
    WriteNeverReverts(s, job, if e.StoreFailed? then Failed
                              else Completed(s.flows[job], s.workers[e.worker].phase.alertId));
  }

  lemma {:induction false} StepNeverReverts(s: State, e: Event)
    requires NeverReverts(s) && Enabled(s, e)
    ensures NeverReverts(Apply(s, e))
  {
    match e
    case Ask(job) => AskNeverReverts(s, job);
    case Submit(_, _) => SubmitNeverReverts(s, e);
    case SubmitRaises(_, _, _) => SubmitNeverReverts(s, e);
    case Publish(_) => ApiNeverReverts(s, e);
    case PublishRaises(_, _) => ApiNeverReverts(s, e);
    case ApiStoresFailed(_) => ApiNeverReverts(s, e);
    case ApiStoreRaises(_, _) => ApiNeverReverts(s, e);
    case StoreCompleted(_, _) => WorkerNeverReverts(s, e);
    case StoreFailed(_, _) => WorkerNeverReverts(s, e);
    case _ =>
  }

  /**
    Over all interleavings, retries, expiries and partial failures: once a poll of a job has seen a
    terminal status, no later poll of that job sees "pending".
    */
  lemma {:induction false} TerminalNeverRevertsToPending(n: int, events: seq<Event>)
    requires Possible(Start(n), events)
    ensures NeverReverts(Reached(Start(n), events))
    decreases |events|
  {
    if events != [] {
      var before := events[..|events| - 1];
      TerminalNeverRevertsToPending(n, before);
      StepNeverReverts(Reached(Start(n), before), events[|events| - 1]);
    }
  }

  // ----------------------------------------------------- completed means committed

  /** The row exists and has the flow. */
  predicate Committed(rows: map<int, string>, alertId: int, flowId: string) {
    alertId in rows && rows[alertId] == flowId
  }

  ghost predicate CacheBacked(cache: map<Job, Result>, flows: map<Job, string>, rows: map<int, string>) {
    forall job | job in cache && cache[job].Completed? ::
      job in flows && cache[job].flowId == flows[job] && Committed(rows, cache[job].alertId, flows[job])
  }

  ghost predicate WorkersBacked(workers: map<WorkerId, Handling>, flows: map<Job, string>, rows: map<int, string>) {
    forall w | w in workers ::
      && workers[w].job in flows
      && (workers[w].phase.Persisted? ==> Committed(rows, workers[w].phase.alertId, flows[workers[w].job]))
  }

  ghost predicate PollsBacked(polls: seq<Poll>, rows: map<int, string>) {
    forall i | 0 <= i < |polls| && polls[i].answer.Found? && polls[i].answer.result.Completed? ::
      Committed(rows, polls[i].answer.result.alertId, polls[i].answer.result.flowId)
  }

  ghost predicate JobsKnown(s: State) {
    (forall job | job in s.queue :: job in s.flows) && (forall job | job in s.api :: job in s.flows)
  }

  ghost predicate Backed(s: State) {
    && CacheBacked(s.cache, s.flows, s.rows)
    && WorkersBacked(s.workers, s.flows, s.rows)
    && PollsBacked(s.polls, s.rows)
    && JobsKnown(s)
  }

  /** Committing a fresh row or accepting a fresh job takes nothing away. */
  lemma {:induction false} GrowthKeepsBacked(s: State, flows: map<Job, string>, rows: map<int, string>)
    requires Backed(s)
    requires forall job | job in s.flows :: job in flows && flows[job] == s.flows[job]
    requires forall id | id in s.rows :: id in rows && rows[id] == s.rows[id]
    ensures CacheBacked(s.cache, flows, rows) && WorkersBacked(s.workers, flows, rows) && PollsBacked(s.polls, rows)
  {
  }

  lemma {:induction false} EnterKeepsBacked(s: State, w: WorkerId, phase: Phase)
    requires Backed(s) && w in s.workers && !phase.Persisted?
    ensures Backed(Enter(s, w, phase))
  {
  }

  lemma {:induction false} TryAgainKeepsBacked(s: State, w: WorkerId)
    requires Backed(s) && Enabled(s, TryAgain(w))
    ensures Backed(Apply(s, TryAgain(w)))
  {
  }

  lemma {:induction false} WriteKeepsBacked(s: State, job: Job, r: Result)
    requires Backed(s)
    requires r.Completed? ==> job in s.flows && r.flowId == s.flows[job] && Committed(s.rows, r.alertId, s.flows[job])
    ensures Backed(Write(s, job, r))
  {
  }

  lemma {:induction false} PersistKeepsBacked(s: State, w: WorkerId, id: int)
    requires Backed(s) && Enabled(s, Persist(w, id))
    ensures Backed(Apply(s, Persist(w, id)))
  {
    GrowthKeepsBacked(s, s.flows, s.rows[id := s.flows[s.workers[w].job]]);
  }

  lemma {:induction false} SubmitKeepsBacked(s: State, job: Job, flowId: string)
    requires Backed(s) && Enabled(s, Submit(job, flowId))
    ensures Backed(Apply(s, Submit(job, flowId)))
  {
    GrowthKeepsBacked(s, s.flows[job := flowId], s.rows);
  }

  lemma {:induction false} AskKeepsBacked(s: State, job: Job)
    requires Backed(s)
    ensures Backed(Apply(s, Ask(job)))
  {
  }

  lemma {:induction false} QueueKeepsBacked(s: State, e: Event)
    requires Backed(s) && Enabled(s, e)
    requires e.Publish? || e.PublishRaises? || e.Take? || e.GiveUp? || e.Crash? || e.Expire?
    ensures Backed(Apply(s, e))
  {
  }

  lemma {:induction false} StepKeepsBacked(s: State, e: Event)
    requires Backed(s) && Enabled(s, e)
    ensures Backed(Apply(s, e))
  {
    match e
    case Submit(job, flowId) => SubmitKeepsBacked(s, job, flowId);
    case SubmitRaises(job, flowId, stored) => SubmitKeepsBacked(s, job, flowId);
    case ApiStoresFailed(job) => WriteKeepsBacked(s, job, Failed);
    case ApiStoreRaises(job, _) => WriteKeepsBacked(s, job, Failed);
    case Undecodable(w) => EnterKeepsBacked(s, w, Retrying);
    case Persist(w, id) => PersistKeepsBacked(s, w, id);
    case Fail(w) => EnterKeepsBacked(s, w, Failing);
    case StoreCompleted(w, raises) =>
      var job := s.workers[w].job;
      var r := Completed(s.flows[job], s.workers[w].phase.alertId);
      WriteKeepsBacked(s, job, r);
      EnterKeepsBacked(Write(s, job, r), w, if raises then Failing else Acking);
    case StoreFailed(w, raises) =>
      WriteKeepsBacked(s, s.workers[w].job, Failed);
      EnterKeepsBacked(Write(s, s.workers[w].job, Failed), w, if raises then Retrying else Acking);
    case StoreFailedRaises(w) => EnterKeepsBacked(s, w, Retrying);
    case Ack(w, acked) => AckKeepsBacked(s, w, acked);
    case TryAgain(w) => TryAgainKeepsBacked(s, w);
    case Ask(job) => AskKeepsBacked(s, job);
    case _ => QueueKeepsBacked(s, e);
  }

  lemma {:induction false} AckKeepsBacked(s: State, w: WorkerId, acked: bool)
    requires Backed(s) && Enabled(s, Ack(w, acked))
    ensures Backed(Apply(s, Ack(w, acked)))
  {
    EnterKeepsBacked(s, w, Retrying);
  }

  /** Over all interleavings every completed result, cached or polled, names a committed row of the same flow. */
  lemma {:induction false} CompletedIsCommitted(n: int, events: seq<Event>)
    requires Possible(Start(n), events)
    ensures Backed(Reached(Start(n), events))
    decreases |events|
  {
    if events != [] {
      var before := events[..|events| - 1];
      CompletedIsCommitted(n, before);
      StepKeepsBacked(Reached(Start(n), before), events[|events| - 1]);
    }
  }

  // ------------------------------------------------------- one verdict for each job

  /** What can go wrong around a broker call, and whether the call took effect all the same. */
  datatype Fault =
    | PendingRaised
    | PublishStored
    | PublishLost
    | ReportRaised
    | PayloadUnreadable
    | CompletedStored
    | FailedStored
    | FailedLost
    | AckLost
    | Crashed

  function FaultOf(e: Event): Option<Fault> {
    match e
    case SubmitRaises(_, _, _) => Some(PendingRaised)
    case PublishRaises(_, added) => Some(if added then PublishStored else PublishLost)
    case ApiStoreRaises(_, _) => Some(ReportRaised)
    case Undecodable(_) => Some(PayloadUnreadable)
    case StoreCompleted(_, raises) => if raises then Some(CompletedStored) else None
    case StoreFailed(_, raises) => if raises then Some(FailedStored) else None
    case StoreFailedRaises(_) => Some(FailedLost)
    case Ack(_, acked) => if acked then None else Some(AckLost)
    case Crash(_) => Some(Crashed)
    case _ => None
  }

  predicate Suffers(e: Event, faults: set<Fault>) {
    FaultOf(e).Some? ==> FaultOf(e).value in faults
  }

  ghost predicate OnlyFaults(events: seq<Event>, faults: set<Fault>) {
    forall i | 0 <= i < |events| :: Suffers(events[i], faults)
  }

  /**
    A publish, or a store of a completed result, that raises after taking effect; and if there is a second attempt,
    also a store of a failed result that does, and an acknowledgement that does not arrive.
    */
  function Divisive(maxRetries: int): set<Fault> {
    if Retry.Budget(maxRetries) <= 1 then {PublishStored, CompletedStored}
    else {PublishStored, CompletedStored, FailedStored, AckLost}
  }

  predicate Harmless(maxRetries: int, e: Event) {
    FaultOf(e).Some? ==> FaultOf(e).value !in Divisive(maxRetries)
  }

  /** The API has handed the job over for good or ended it. */
  predicate Handed(api: map<Job, Api>, job: Job) {
    job in api && api[job] == Finished
  }

  /** A job the API still works on is nowhere else and has no verdict. */
  ghost predicate ApiFirst(s: State) {
    && (forall job | job in s.api :: job in s.flows)
    && (forall job | job in s.queue :: Handed(s.api, job))
    && (forall w | w in s.workers :: Handed(s.api, s.workers[w].job))
    && (forall job | job in s.verdicts :: Handed(s.api, job))
  }

  /** The worker will not run the handler again. */
  predicate Done(h: Handling, maxRetries: int) {
    h.phase == Acking || (h.phase == Retrying && Exhausted(h, maxRetries))
  }

  /** A job is queued, or held by one worker, or neither; until that worker has written it has no verdict. */
  ghost predicate OneHolder(queue: set<Job>, workers: map<WorkerId, Handling>, verdicts: map<Job, Result>, n: int) {
    && (forall v, w | v in workers && w in workers && workers[v].job == workers[w].job :: v == w)
    && (forall w | w in workers :: workers[w].job !in queue)
    && (forall job | job in queue :: job !in verdicts)
    && (forall w | w in workers && !Done(workers[w], n) :: workers[w].job !in verdicts)
    && (forall w | w in workers :: workers[w].attempt >= 1)
  }

  /** Terminal results, cached or polled, are the verdict. */
  ghost predicate VerdictShown(s: State) {
    && (forall job | job in s.cache && s.cache[job] != Pending :: job in s.verdicts && s.verdicts[job] == s.cache[job])
    && (forall i | 0 <= i < |s.polls| && s.polls[i].Terminal() ::
          s.polls[i].job in s.verdicts && s.polls[i].answer == Found(s.verdicts[s.polls[i].job]))
  }

  ghost predicate Decided(s: State) {
    ApiFirst(s) && OneHolder(s.queue, s.workers, s.verdicts, s.maxRetries) && VerdictShown(s)
  }

  lemma {:induction false} FirstVerdict(s: State, job: Job, r: Result)
    requires VerdictShown(s) && job !in s.verdicts && r != Pending
    ensures VerdictShown(Write(s, job, r))
  {
  }

  /** A worker that moves on keeps its job; if the job has a verdict, the worker must be done with it. */
  lemma {:induction false} MovingKeepsOneHolder(queue: set<Job>, workers: map<WorkerId, Handling>,
      verdicts: map<Job, Result>, n: int, w: WorkerId, h: Handling)
    requires OneHolder(queue, workers, verdicts, n) && w in workers
    requires h.job == workers[w].job && h.attempt >= 1 && (h.job in verdicts ==> Done(h, n))
    ensures OneHolder(queue, workers[w := h], verdicts, n)
  {
  }

  lemma {:induction false} WriterKeepsOneHolder(queue: set<Job>, workers: map<WorkerId, Handling>,
      verdicts: map<Job, Result>, n: int, w: WorkerId, h: Handling, r: Result)
    requires OneHolder(queue, workers, verdicts, n) && w in workers
    requires h.job == workers[w].job && h.attempt >= 1 && Done(h, n)
    ensures OneHolder(queue, workers[w := h], verdicts[h.job := r], n)
  {
  }

  lemma {:induction false} EnterKeepsDecided(s: State, w: WorkerId, phase: Phase)
    requires Decided(s) && w in s.workers
    requires !Done(s.workers[w], s.maxRetries) || Done(s.workers[w].(phase := phase), s.maxRetries)
    ensures Decided(Enter(s, w, phase))
  {
    MovingKeepsOneHolder(s.queue, s.workers, s.verdicts, s.maxRetries, w, s.workers[w].(phase := phase));
  }

  /** The worker that holds a job writes its verdict and will not run the handler again. */
  lemma {:induction false} WorkerDecides(s: State, w: WorkerId, r: Result, phase: Phase)
    requires Decided(s) && w in s.workers && !Done(s.workers[w], s.maxRetries) && r != Pending
    requires Done(s.workers[w].(phase := phase), s.maxRetries)
    ensures Decided(Enter(Write(s, s.workers[w].job, r), w, phase))
  {
    FirstVerdict(s, s.workers[w].job, r);
    WriterKeepsOneHolder(s.queue, s.workers, s.verdicts, s.maxRetries, w, s.workers[w].(phase := phase), r);
  }

  /** With one attempt every worker is on its last. */
  lemma {:induction false} OnlyAttempt(s: State, w: WorkerId)
    requires Decided(s) && w in s.workers && Retry.Budget(s.maxRetries) <= 1
    ensures Exhausted(s.workers[w], s.maxRetries)
  {
  }

  lemma {:induction false} StoreFailedKeepsDecided(s: State, w: WorkerId, raises: bool)
    requires Decided(s) && Enabled(s, StoreFailed(w, raises)) && Harmless(s.maxRetries, StoreFailed(w, raises))
    ensures Decided(Apply(s, StoreFailed(w, raises)))
  {
    if raises {
      OnlyAttempt(s, w);
      WorkerDecides(s, w, Failed, Retrying);
    } else {
      WorkerDecides(s, w, Failed, Acking);
    }
  }

  lemma {:induction false} AckKeepsDecided(s: State, w: WorkerId, acked: bool)
    requires Decided(s) && Enabled(s, Ack(w, acked)) && Harmless(s.maxRetries, Ack(w, acked))
    ensures Decided(Apply(s, Ack(w, acked)))
  {
    if acked {
      LeaveKeepsDecided(s, w);
    } else {
      OnlyAttempt(s, w);
      EnterKeepsDecided(s, w, Retrying);
    }
  }

  lemma {:induction false} TryAgainKeepsDecided(s: State, w: WorkerId)
    requires Decided(s) && Enabled(s, TryAgain(w))
    ensures Decided(Apply(s, TryAgain(w)))
  {
    var h := s.workers[w];
    MovingKeepsOneHolder(s.queue, s.workers, s.verdicts, s.maxRetries, w, Handling(h.job, h.attempt + 1, Taken));
  }

  /** The API, whose publish failed, writes it: no worker ever got the job. */
  lemma {:induction false} ApiDecides(s: State, job: Job)
    requires Decided(s) && Enabled(s, ApiStoresFailed(job))
    ensures Decided(Apply(s, ApiStoresFailed(job)))
  {
    FirstVerdict(s, job, Failed);
  }

  lemma {:induction false} ApiStopsUndecided(s: State, job: Job)
    requires Decided(s) && Enabled(s, ApiStoreRaises(job, false))
    ensures Decided(Apply(s, ApiStoreRaises(job, false)))
  {
  }

  lemma {:induction false} TakeKeepsDecided(s: State, w: WorkerId, job: Job)
    requires Decided(s) && Enabled(s, Take(w, job))
    ensures Decided(Apply(s, Take(w, job)))
  {
  }

  lemma {:induction false} LeaveKeepsDecided(s: State, w: WorkerId)
    requires Decided(s) && w in s.workers
    ensures Decided(s.(workers := s.workers - {w}))
  {
  }

  lemma {:induction false} SubmitKeepsDecided(s: State, e: Event)
    requires Decided(s) && Enabled(s, e) && (e.Submit? || e.SubmitRaises?)
    ensures Decided(Apply(s, e))
  {
  }

  lemma {:induction false} PublishKeepsDecided(s: State, e: Event)
    requires Decided(s) && Enabled(s, e) && Harmless(s.maxRetries, e) && (e.Publish? || e.PublishRaises?)
    ensures Decided(Apply(s, e))
  {
  }

  lemma {:induction false} CacheStepKeepsDecided(s: State, e: Event)
    requires Decided(s) && Enabled(s, e) && (e.Expire? || e.Ask?)
    ensures Decided(Apply(s, e))
  {
  }

  lemma {:induction false} PersistKeepsDecided(s: State, w: WorkerId, id: int)
    requires Decided(s) && Enabled(s, Persist(w, id))
    ensures Decided(Apply(s, Persist(w, id)))
  {
    EnterKeepsDecided(s, w, Persisted(id));
  }

  lemma {:induction false} CompletingKeepsDecided(s: State, w: WorkerId, raises: bool)
    requires Decided(s) && Enabled(s, StoreCompleted(w, raises)) && Harmless(s.maxRetries, StoreCompleted(w, raises))
    ensures Decided(Apply(s, StoreCompleted(w, raises)))
  {
    WorkerDecides(s, w, Completed(s.flows[s.workers[w].job], s.workers[w].phase.alertId), Acking);
  }

  /** What raises before any write leaves the job undecided. */
  lemma {:induction false} RaisingKeepsDecided(s: State, e: Event)
    requires Decided(s) && Enabled(s, e) && (e.Undecodable? || e.Fail? || e.StoreFailedRaises?)
    ensures Decided(Apply(s, e))
  {
    EnterKeepsDecided(s, e.worker, if e.Fail? then Failing else Retrying);
  }

  lemma {:induction false} WorkerKeepsDecided(s: State, e: Event)
    requires Decided(s) && Enabled(s, e) && Harmless(s.maxRetries, e)
    requires e.Undecodable? || e.Persist? || e.Fail? || e.StoreCompleted? || e.StoreFailed? || e.StoreFailedRaises?
             || e.Ack? || e.TryAgain? || e.GiveUp? || e.Crash?
    ensures Decided(Apply(s, e))
  {
    match e
    case Persist(w, id) => PersistKeepsDecided(s, w, id);
    case StoreCompleted(w, raises) => CompletingKeepsDecided(s, w, raises);
    case StoreFailed(w, raises) => StoreFailedKeepsDecided(s, w, raises);
    case Ack(w, acked) => AckKeepsDecided(s, w, acked);
    case TryAgain(w) => TryAgainKeepsDecided(s, w);
    case GiveUp(w) => LeaveKeepsDecided(s, w);
    case Crash(w) => LeaveKeepsDecided(s, w);
    case _ => RaisingKeepsDecided(s, e);
  }

  lemma {:induction false} ApiStoreKeepsDecided(s: State, job: Job, stored: bool)
    requires Decided(s) && Enabled(s, ApiStoreRaises(job, stored))
    ensures Decided(Apply(s, ApiStoreRaises(job, stored)))
  {
    if stored {
      ApiDecides(s, job);
    } else {
      ApiStopsUndecided(s, job);
    }
  }

  lemma {:induction false} StepKeepsDecided(s: State, e: Event)
    requires Decided(s) && Enabled(s, e) && Harmless(s.maxRetries, e)
    ensures Decided(Apply(s, e))
  {
    match e
    case ApiStoresFailed(job) => ApiDecides(s, job);
    case ApiStoreRaises(job, stored) => ApiStoreKeepsDecided(s, job, stored);
    case Take(w, job) => TakeKeepsDecided(s, w, job);
    case Expire(_) => CacheStepKeepsDecided(s, e);
    case Ask(_) => CacheStepKeepsDecided(s, e);
    case Publish(_) => PublishKeepsDecided(s, e);
    case PublishRaises(_, _) => PublishKeepsDecided(s, e);
    case Submit(_, _) => SubmitKeepsDecided(s, e);
    case SubmitRaises(_, _, _) => SubmitKeepsDecided(s, e);
    case _ => WorkerKeepsDecided(s, e);
  }

  lemma {:induction false} StepKeepsBudget(s: State, e: Event, s': State)
    requires Enabled(s, e) && s' == Apply(s, e)
    ensures s'.maxRetries == s.maxRetries
  {
  }

  lemma {:induction false} BudgetStays(s: State, events: seq<Event>)
    requires Possible(s, events)
    ensures Reached(s, events).maxRetries == s.maxRetries
    decreases |events|
  {
    if events != [] {
      var before, e := events[..|events| - 1], events[|events| - 1];
      BudgetStays(s, before);
      StepKeepsBudget(Reached(s, before), e, Reached(s, events));
    }
  }

  lemma {:induction false} RunKeepsDecided(n: int, events: seq<Event>, faults: set<Fault>)
    requires Possible(Start(n), events) && OnlyFaults(events, faults) && faults !! Divisive(n)
    ensures Decided(Reached(Start(n), events))
    decreases |events|
  {
    if events != [] {
      var before, e := events[..|events| - 1], events[|events| - 1];
      RunKeepsDecided(n, before, faults);
      assert Suffers(e, faults);
      BudgetStays(Start(n), before);
      StepKeepsDecided(Reached(Start(n), before), e);
    }
  }

  /** All terminal polls of a job agree. */
  ghost predicate Agreeing(polls: seq<Poll>) {
    forall i, j | 0 <= i < j < |polls| && polls[i].job == polls[j].job && polls[i].Terminal() && polls[j].Terminal() ::
      polls[i].answer == polls[j].answer
  }

  // ---------------------------------------------------- runs that change the verdict

  /** A run with the given faults after which one worker holds the job, and what has been committed and polled. */
  ghost predicate Holding(n: int, events: seq<Event>, faults: set<Fault>, w: WorkerId, h: Handling, flowId: string,
      rows: map<int, string>, polls: seq<Poll>)
  {
    && Possible(Start(n), events) && OnlyFaults(events, faults)
    && var s := Reached(Start(n), events);
       && w in s.workers && s.workers[w] == h
       && h.job in s.flows && s.flows[h.job] == flowId
       && s.rows == rows && s.polls == polls && s.maxRetries == n
  }

  lemma {:induction false} OneMoreEvent(n: int, before: seq<Event>, faults: set<Fault>, e: Event)
    returns (events: seq<Event>)
    requires Possible(Start(n), before) && OnlyFaults(before, faults)
    requires Enabled(Reached(Start(n), before), e) && Suffers(e, faults)
    ensures Possible(Start(n), events) && OnlyFaults(events, faults)
    ensures Reached(Start(n), events) == Apply(Reached(Start(n), before), e)
  {
    PossibleOneMore(Start(n), before, e);
    events := before + [e];
  }

  lemma {:induction false} SubmittedRun(n: int, faults: set<Fault>, job: Job, flowId: string)
    returns (events: seq<Event>)
    ensures Possible(Start(n), events) && OnlyFaults(events, faults)
    ensures Reached(Start(n), events) == State(n, map[job := flowId], map[job := Stored], {}, map[], map[],
                                               map[job := Pending], map[], [])
  {
    events := OneMoreEvent(n, [], faults, Submit(job, flowId));
  }

  lemma {:induction false} QueuedRun(n: int, faults: set<Fault>, job: Job, flowId: string, w: WorkerId)
    returns (events: seq<Event>)
    ensures Holding(n, events, faults, w, Handling(job, 1, Taken), flowId, map[], [])
  {
    events := SubmittedRun(n, faults, job, flowId);
    events := OneMoreEvent(n, events, faults, Publish(job));
    events := OneMoreEvent(n, events, faults, Take(w, job));
  }

  /** The worker completes the job and a client sees it. */
  lemma {:induction false} CompletionIsSeen(n: int, before: seq<Event>, faults: set<Fault>, w: WorkerId, job: Job,
      flowId: string, rows: map<int, string>, polls: seq<Poll>, alertId: int, attempt: nat, raises: bool)
    returns (events: seq<Event>)
    requires Holding(n, before, faults, w, Handling(job, attempt, Taken), flowId, rows, polls)
    requires alertId !in rows && (raises ==> CompletedStored in faults)
    ensures Holding(n, events, faults, w, Handling(job, attempt, if raises then Failing else Acking), flowId,
                    rows[alertId := flowId], polls + [Poll(job, Found(Completed(flowId, alertId)))])
  {
    events := OneMoreEvent(n, before, faults, Persist(w, alertId));
    events := OneMoreEvent(n, events, faults, StoreCompleted(w, raises));
    events := OneMoreEvent(n, events, faults, Ask(job));
  }

  /** The worker reports a failure and a client sees it. */
  lemma {:induction false} FailureIsSeen(n: int, before: seq<Event>, faults: set<Fault>, w: WorkerId, job: Job,
      flowId: string, rows: map<int, string>, polls: seq<Poll>, attempt: nat, raises: bool)
    returns (events: seq<Event>)
    requires Holding(n, before, faults, w, Handling(job, attempt, Failing), flowId, rows, polls)
    requires raises ==> FailedStored in faults
    ensures Holding(n, events, faults, w, Handling(job, attempt, if raises then Retrying else Acking), flowId, rows,
                    polls + [Poll(job, Found(Failed))])
  {
    events := OneMoreEvent(n, before, faults, StoreFailed(w, raises));
    events := OneMoreEvent(n, events, faults, Ask(job));
  }

  /** A run that only the given faults can happen in, and the two answers it ends with. */
  ghost predicate Shows(n: int, events: seq<Event>, faults: set<Fault>, polls: seq<Poll>) {
    Possible(Start(n), events) && OnlyFaults(events, faults) && Reached(Start(n), events).polls == polls
  }

  /**
    When a publish raises after the broker stored the message, the API writes "failed", a worker completes
    the job all the same, and a client sees first the one and then the other.
    */
  lemma {:induction false} FailedThenCompleted(n: int, w: WorkerId, job: Job, flowId: string, alertId: int)
    returns (events: seq<Event>)
    ensures Shows(n, events, {PublishStored}, [Poll(job, Found(Failed)), Poll(job, Found(Completed(flowId, alertId)))])
  {
    var faults := {PublishStored};
    events := SubmittedRun(n, faults, job, flowId);
    events := OneMoreEvent(n, events, faults, PublishRaises(job, true));
    events := OneMoreEvent(n, events, faults, ApiStoresFailed(job));
    events := OneMoreEvent(n, events, faults, Ask(job));
    events := OneMoreEvent(n, events, faults, Take(w, job));
    events := CompletionIsSeen(n, events, faults, w, job, flowId, map[], [Poll(job, Found(Failed))], alertId, 1, false);
  }

  /** When storing "completed" raises after its effect, the except branch overwrites it with "failed". */
  lemma {:induction false} CompletedThenFailed(n: int, w: WorkerId, job: Job, flowId: string, alertId: int)
    returns (events: seq<Event>)
    ensures Shows(n, events, {CompletedStored},
                  [Poll(job, Found(Completed(flowId, alertId))), Poll(job, Found(Failed))])
  {
    var faults := {CompletedStored};
    events := QueuedRun(n, faults, job, flowId, w);
    events := CompletionIsSeen(n, events, faults, w, job, flowId, map[], [], alertId, 1, true);
    events := FailureIsSeen(n, events, faults, w, job, flowId, map[alertId := flowId],
                            [Poll(job, Found(Completed(flowId, alertId)))], 1, false);
  }

  /** When storing "failed" raises after its effect, the retried handler can complete the job. */
  lemma {:induction false} RetriedAfterFailed(n: int, w: WorkerId, job: Job, flowId: string, alertId: int)
    returns (events: seq<Event>)
    requires Retry.Budget(n) >= 2
    ensures Shows(n, events, {FailedStored}, [Poll(job, Found(Failed)), Poll(job, Found(Completed(flowId, alertId)))])
  {
    var faults := {FailedStored};
    events := QueuedRun(n, faults, job, flowId, w);
    events := OneMoreEvent(n, events, faults, Fail(w));
    events := FailureIsSeen(n, events, faults, w, job, flowId, map[], [], 1, true);
    events := OneMoreEvent(n, events, faults, TryAgain(w));
    events := CompletionIsSeen(n, events, faults, w, job, flowId, map[], [Poll(job, Found(Failed))], alertId, 2,
                               false);
  }

  /** When an acknowledgement is lost, the retried handler commits a second row and caches its id. */
  lemma {:induction false} CompletedTwice(n: int, w: WorkerId, job: Job, flowId: string, alertId: int, again: int)
    returns (events: seq<Event>)
    requires again != alertId && Retry.Budget(n) >= 2
    ensures Shows(n, events, {AckLost},
                  [Poll(job, Found(Completed(flowId, alertId))), Poll(job, Found(Completed(flowId, again)))])
  {
    var faults := {AckLost};
    events := QueuedRun(n, faults, job, flowId, w);
    events := CompletionIsSeen(n, events, faults, w, job, flowId, map[], [], alertId, 1, false);
    events := OneMoreEvent(n, events, faults, Ack(w, false));
    events := OneMoreEvent(n, events, faults, TryAgain(w));
    events := CompletionIsSeen(n, events, faults, w, job, flowId, map[alertId := flowId],
                               [Poll(job, Found(Completed(flowId, alertId)))], again, 2, false);
  }

  lemma {:induction false} MoreFaults(events: seq<Event>, fault: Fault, faults: set<Fault>)
    requires OnlyFaults(events, {fault}) && fault in faults
    ensures OnlyFaults(events, faults)
  {
    forall i | 0 <= i < |events|
      ensures Suffers(events[i], faults)
    {
      assert Suffers(events[i], {fault});
    }
  }

  lemma {:induction false} TwoAnswers(job: Job, first: Result, second: Result)
    requires first != second && first != Pending && second != Pending
    ensures !Agreeing([Poll(job, Found(first)), Poll(job, Found(second))])
  {
    var polls := [Poll(job, Found(first)), Poll(job, Found(second))];
    assert polls[0].Terminal() && polls[1].Terminal() && polls[0].answer != polls[1].answer;
  }

  /** Each of these faults alone has a run in which a client sees two terminal answers. */
  lemma {:induction false} DivisiveFaultDivides(n: int, fault: Fault) returns (events: seq<Event>)
    requires fault in Divisive(n)
    ensures Possible(Start(n), events) && OnlyFaults(events, {fault}) && !Agreeing(Reached(Start(n), events).polls)
  {
    match fault
    case PublishStored =>
      events := FailedThenCompleted(n, 0, 0, "", 1);
      TwoAnswers(0, Failed, Completed("", 1));
    case CompletedStored =>
      events := CompletedThenFailed(n, 0, 0, "", 1);
      TwoAnswers(0, Completed("", 1), Failed);
    case FailedStored =>
      events := RetriedAfterFailed(n, 0, 0, "", 1);
      TwoAnswers(0, Failed, Completed("", 1));
    case AckLost =>
      events := CompletedTwice(n, 0, 0, "", 1, 2);
      TwoAnswers(0, Completed("", 1), Completed("", 2));
  }

  /**
    With n attempts configured, all terminal polls of a job agree in every run, whatever other faults happen, if
    and only if publishes and a worker's writes do not raise after taking effect and acknowledgements are not
    lost; with a single attempt failed results may be stored by a call that raises, and acknowledgements lost.
    */
  lemma {:induction false} TerminalPollsAgreeExactly(n: int, faults: set<Fault>)
    ensures faults !! Divisive(n)
            <==> forall events | Possible(Start(n), events) && OnlyFaults(events, faults) ::
                   Agreeing(Reached(Start(n), events).polls)
  {
    if faults !! Divisive(n) {
      forall events | Possible(Start(n), events) && OnlyFaults(events, faults)
        ensures Agreeing(Reached(Start(n), events).polls)
      {
        RunKeepsDecided(n, events, faults);
      }
    } else {
      var fault :| fault in faults && fault in Divisive(n);
      var events := DivisiveFaultDivides(n, fault);
      MoreFaults(events, fault, faults);
    }
  }

  // ------------------------------------------------------ jobs that nobody works on

  /** Nobody will ever work on the job; if a result is cached, a poll is answered `last`. */
  ghost predicate Idle(s: State, job: Job, last: Answer) {
    && job in s.flows && Handed(s.api, job) && job !in s.queue
    && (forall w | w in s.workers :: s.workers[w].job != job)
    && (job in s.cache ==> Found(s.cache[job]) == last)
  }

  lemma {:induction false} TakeKeepsIdle(s: State, w: WorkerId, other: Job, job: Job, last: Answer)
    requires Idle(s, job, last) && Enabled(s, Take(w, other))
    ensures Idle(Apply(s, Take(w, other)), job, last)
  {
  }

  /** A worker only ever moves on with, writes for, or drops the job it holds. */
  lemma {:induction false} WorkerKeepsIdle(s: State, e: Event, job: Job, last: Answer)
    requires Idle(s, job, last) && Enabled(s, e)
    requires e.Undecodable? || e.Persist? || e.Fail? || e.StoreCompleted? || e.StoreFailed? || e.StoreFailedRaises?
             || e.Ack? || e.TryAgain? || e.GiveUp? || e.Crash?
    ensures Idle(Apply(s, e), job, last)
  {
    assert s.workers[e.worker].job != job;
  }

  lemma {:induction false} ApiKeepsIdle(s: State, e: Event, job: Job, last: Answer)
    requires Idle(s, job, last) && Enabled(s, e)
    requires e.Submit? || e.SubmitRaises? || e.Publish? || e.PublishRaises? || e.ApiStoresFailed? || e.ApiStoreRaises?
             || e.Expire? || e.Ask?
    ensures Idle(Apply(s, e), job, last)
  {
  }

  lemma {:induction false} StepKeepsIdle(s: State, e: Event, job: Job, last: Answer)
    requires Idle(s, job, last) && Enabled(s, e)
    ensures Idle(Apply(s, e), job, last)
  {
    match e
    case Take(w, other) => TakeKeepsIdle(s, w, other, job, last);
    case Submit(_, _) => ApiKeepsIdle(s, e, job, last);
    case SubmitRaises(_, _, _) => ApiKeepsIdle(s, e, job, last);
    case Publish(_) => ApiKeepsIdle(s, e, job, last);
    case PublishRaises(_, _) => ApiKeepsIdle(s, e, job, last);
    case ApiStoresFailed(_) => ApiKeepsIdle(s, e, job, last);
    case ApiStoreRaises(_, _) => ApiKeepsIdle(s, e, job, last);
    case Expire(_) => ApiKeepsIdle(s, e, job, last);
    case Ask(_) => ApiKeepsIdle(s, e, job, last);
    case _ => WorkerKeepsIdle(s, e, job, last);
  }

  /** Every later poll of such a job is answered the same or, once that has expired, not found. */
  lemma {:induction false} IdleJobIsSettled(s: State, events: seq<Event>, job: Job, last: Answer)
    requires Idle(s, job, last) && Possible(s, events)
    ensures Idle(Reached(s, events), job, last)
    ensures s.polls <= Reached(s, events).polls
    ensures forall i | |s.polls| <= i < |Reached(s, events).polls| && Reached(s, events).polls[i].job == job ::
              Reached(s, events).polls[i].answer == last || Reached(s, events).polls[i].answer == NotFound
    decreases |events|
  {
    if events != [] {
      IdleJobIsSettled(s, events[..|events| - 1], job, last);
      StepKeepsIdle(Reached(s, events[..|events| - 1]), events[|events| - 1], job, last);
    }
  }

  /** The API has tried to publish the job, or has ended it before. */
  predicate Published(api: map<Job, Api>, job: Job) {
    job in api && api[job] != Stored
  }

  /** A job is queued once or held by one worker, and no worker is beyond its last attempt. */
  ghost predicate Places(api: map<Job, Api>, queue: set<Job>, workers: map<WorkerId, Handling>, n: int) {
    && (forall v, w | v in workers && w in workers && workers[v].job == workers[w].job :: v == w)
    && (forall w | w in workers :: workers[w].job !in queue && Published(api, workers[w].job))
    && (forall job | job in queue :: Published(api, job))
    && (forall w | w in workers :: 1 <= workers[w].attempt <= Retry.Budget(n))
  }

  ghost predicate PlacedOnce(s: State) {
    Places(s.api, s.queue, s.workers, s.maxRetries) && forall job | job in s.api :: job in s.flows
  }

  lemma {:induction false} AcceptingKeepsPlaces(api: map<Job, Api>, queue: set<Job>, workers: map<WorkerId, Handling>,
      n: int, job: Job, a: Api)
    requires Places(api, queue, workers, n) && job !in api
    ensures Places(api[job := a], queue, workers, n)
  {
  }

  lemma {:induction false} PublishingKeepsPlaces(api: map<Job, Api>, queue: set<Job>, workers: map<WorkerId, Handling>,
      n: int, job: Job, a: Api)
    requires Places(api, queue, workers, n) && job in api && a != Stored
    ensures Places(api[job := a], queue, workers, n)
    ensures api[job] == Stored ==> Places(api[job := a], queue + {job}, workers, n)
  {
  }

  lemma {:induction false} ApiKeepsPlaces(s: State, e: Event)
    requires PlacedOnce(s) && Enabled(s, e)
    requires e.Submit? || e.SubmitRaises? || e.Publish? || e.PublishRaises? || e.ApiStoresFailed? || e.ApiStoreRaises?
             || e.Expire? || e.Ask?
    ensures PlacedOnce(Apply(s, e))
  {
    match e
    case Submit(job, _) => AcceptingKeepsPlaces(s.api, s.queue, s.workers, s.maxRetries, job, Stored);
    case SubmitRaises(job, _, _) => AcceptingKeepsPlaces(s.api, s.queue, s.workers, s.maxRetries, job, Finished);
    case Publish(job) => PublishingKeepsPlaces(s.api, s.queue, s.workers, s.maxRetries, job, Finished);
    case PublishRaises(job, _) => PublishingKeepsPlaces(s.api, s.queue, s.workers, s.maxRetries, job, PublishRaised);
    case ApiStoresFailed(job) => PublishingKeepsPlaces(s.api, s.queue, s.workers, s.maxRetries, job, Finished);
    case ApiStoreRaises(job, _) => PublishingKeepsPlaces(s.api, s.queue, s.workers, s.maxRetries, job, Finished);
    case _ =>
  }

  lemma {:induction false} MovingKeepsPlaces(api: map<Job, Api>, queue: set<Job>, workers: map<WorkerId, Handling>,
      n: int, w: WorkerId, h: Handling)
    requires Places(api, queue, workers, n) && w in workers && h.job == workers[w].job
    requires 1 <= h.attempt <= Retry.Budget(n)
    ensures Places(api, queue, workers[w := h], n)
  {
  }

  lemma {:induction false} LeavingKeepsPlaces(api: map<Job, Api>, queue: set<Job>, workers: map<WorkerId, Handling>,
      n: int, w: WorkerId)
    requires Places(api, queue, workers, n)
    ensures Places(api, queue, workers - {w}, n)
  {
  }

  lemma {:induction false} TakingKeepsPlaces(api: map<Job, Api>, queue: set<Job>, workers: map<WorkerId, Handling>,
      n: int, w: WorkerId, job: Job)
    requires Places(api, queue, workers, n) && w !in workers && job in queue
    ensures Places(api, queue - {job}, workers[w := Handling(job, 1, Taken)], n)
  {
  }

  lemma {:induction false} EnteringKeepsPlaces(s: State, w: WorkerId, phase: Phase)
    requires PlacedOnce(s) && w in s.workers
    ensures PlacedOnce(Enter(s, w, phase))
  {
    MovingKeepsPlaces(s.api, s.queue, s.workers, s.maxRetries, w, s.workers[w].(phase := phase));
  }

  lemma {:induction false} WritingKeepsPlaces(s: State, w: WorkerId, job: Job, r: Result, phase: Phase)
    requires PlacedOnce(s) && w in s.workers
    ensures PlacedOnce(Enter(Write(s, job, r), w, phase))
  {
    EnteringKeepsPlaces(s, w, phase);
  }

  lemma {:induction false} PersistingKeepsPlaces(s: State, w: WorkerId, id: int)
    requires PlacedOnce(s) && Enabled(s, Persist(w, id))
    ensures PlacedOnce(Apply(s, Persist(w, id)))
  {
    EnteringKeepsPlaces(s, w, Persisted(id));
  }

  lemma {:induction false} TryingKeepsPlaces(s: State, w: WorkerId)
    requires PlacedOnce(s) && Enabled(s, TryAgain(w))
    ensures PlacedOnce(Apply(s, TryAgain(w)))
  {
    var h := s.workers[w];
    MovingKeepsPlaces(s.api, s.queue, s.workers, s.maxRetries, w, Handling(h.job, h.attempt + 1, Taken));
  }

  lemma {:induction false} StepKeepsPlaces(s: State, e: Event)
    requires PlacedOnce(s) && Enabled(s, e)
    ensures PlacedOnce(Apply(s, e))
  {
    match e
    case Take(w, job) => TakingKeepsPlaces(s.api, s.queue, s.workers, s.maxRetries, w, job);
    case Undecodable(w) => EnteringKeepsPlaces(s, w, Retrying);
    case Persist(w, id) => PersistingKeepsPlaces(s, w, id);
    case Fail(w) => EnteringKeepsPlaces(s, w, Failing);
    case StoreCompleted(w, raises) =>
      var job := s.workers[w].job;
      WritingKeepsPlaces(s, w, job, Completed(s.flows[job], s.workers[w].phase.alertId),
                         if raises then Failing else Acking);
    case StoreFailed(w, raises) =>
      WritingKeepsPlaces(s, w, s.workers[w].job, Failed, if raises then Retrying else Acking);
    case StoreFailedRaises(w) => EnteringKeepsPlaces(s, w, Retrying);
    case Ack(w, acked) =>
      EnteringKeepsPlaces(s, w, Retrying);
      LeavingKeepsPlaces(s.api, s.queue, s.workers, s.maxRetries, w);
    case TryAgain(w) => TryingKeepsPlaces(s, w);
    case GiveUp(w) => LeavingKeepsPlaces(s.api, s.queue, s.workers, s.maxRetries, w);
    case Crash(w) => LeavingKeepsPlaces(s.api, s.queue, s.workers, s.maxRetries, w);
    case _ => ApiKeepsPlaces(s, e);
  }

  /** Over every run, with any faults: a job is in one place at most, and no handling exceeds its attempts. */
  lemma {:induction false} RunKeepsPlaces(n: int, events: seq<Event>)
    requires Possible(Start(n), events)
    ensures PlacedOnce(Reached(Start(n), events))
    decreases |events|
  {
    if events != [] {
      var before := events[..|events| - 1];
      RunKeepsPlaces(n, before);
      StepKeepsPlaces(Reached(Start(n), before), events[|events| - 1]);
    }
  }

  /**
    When a worker has acknowledged a job, has given it up or has crashed over it, and the API is done with it, the
    job is settled: whatever happens later, it is answered as it was then or, once that has expired, not found.
    */
  lemma {:induction false} LeftJobIsSettled(n: int, events: seq<Event>, e: Event, more: seq<Event>, w: WorkerId,
      job: Job)
    requires e == Ack(w, true) || e == GiveUp(w) || e == Crash(w)
    requires Possible(Start(n), events) && Enabled(Reached(Start(n), events), e)
    requires var s := Reached(Start(n), events);
             s.workers[w].job == job && Handed(s.api, job) && Possible(Apply(s, e), more)
    ensures var s := Reached(Start(n), events);
            var t := Reached(Apply(s, e), more);
            forall i | |s.polls| <= i < |t.polls| && t.polls[i].job == job ::
              t.polls[i].answer == Look(s.cache, job) || t.polls[i].answer == NotFound
  {
    var s := Reached(Start(n), events);
    RunKeepsPlaces(n, events);
    IdleJobIsSettled(Apply(s, e), more, job, Look(s.cache, job));
  }

  /** When the result of such a job expires, it is gone for good. */
  lemma {:induction false} ExpiredIsGone(s: State, job: Job, last: Answer, more: seq<Event>)
    requires Idle(s, job, last) && Enabled(s, Expire(job)) && Possible(Apply(s, Expire(job)), more)
    ensures var t := Reached(Apply(s, Expire(job)), more);
            forall i | |s.polls| <= i < |t.polls| && t.polls[i].job == job :: t.polls[i].answer == NotFound
  {
    IdleJobIsSettled(Apply(s, Expire(job)), more, job, NotFound);
  }

  /** The job was taken from the queue and does not come back to it. */
  ghost predicate Gone(s: State, job: Job) {
    Published(s.api, job) && job in s.flows && job !in s.queue
  }

  lemma {:induction false} StepKeepsGone(s: State, e: Event, job: Job)
    requires Enabled(s, e) && Gone(s, job)
    ensures Gone(Apply(s, e), job)
  {
  }

  lemma {:induction false} TakingIsGone(s: State, w: WorkerId, job: Job)
    requires PlacedOnce(s) && Enabled(s, Take(w, job))
    ensures Gone(Apply(s, Take(w, job)), job)
  {
  }

  lemma {:induction false} TakenIsGone(n: int, events: seq<Event>, i: nat)
    requires Possible(Start(n), events) && i < |events| && events[i].Take?
    ensures Gone(Reached(Start(n), events), events[i].job)
    decreases |events|
  {
    var before, e := events[..|events| - 1], events[|events| - 1];
    RunKeepsPlaces(n, before);
    if i == |before| {
      TakingIsGone(Reached(Start(n), before), e.worker, e.job);
    } else {
      assert before[i] == events[i];
      TakenIsGone(n, before, i);
      StepKeepsGone(Reached(Start(n), before), e, events[i].job);
    }
  }

  lemma {:induction false} PrefixPossible(s: State, events: seq<Event>, k: nat)
    requires Possible(s, events) && k < |events|
    ensures Possible(s, events[..k]) && Enabled(Reached(s, events[..k]), events[k])
    decreases |events|
  {
    if k < |events| - 1 {
      var before := events[..|events| - 1];
      PrefixPossible(s, before, k);
      assert before[..k] == events[..k] && before[k] == events[k];
    }
  }

  /**
    Over every run, with any faults, each job is taken from the queue once, and whoever holds it is on no more than
    the configured attempt: no job is handled more often than max_retries times (once, if that is less than one).
    */
  lemma {:induction false} HandledWithinBudget(n: int, events: seq<Event>)
    requires Possible(Start(n), events)
    ensures forall i, j | 0 <= i < j < |events| && events[i].Take? && events[j].Take? :: events[i].job != events[j].job
    ensures var workers := Reached(Start(n), events).workers;
            forall w | w in workers :: 1 <= workers[w].attempt <= if n > 1 then n else 1
  {
    RunKeepsPlaces(n, events);
    BudgetStays(Start(n), events);
    forall i, j | 0 <= i < j < |events| && events[i].Take? && events[j].Take?
      ensures events[i].job != events[j].job
    {
      PrefixPossible(Start(n), events, j);
      assert events[..j][i] == events[i];
      TakenIsGone(n, events[..j], i);
    }
  }

  // -------------------------------------------------------- the code behind the steps

  /** What a call that writes to the broker did: it took effect, took effect and raised, or raised without effect. */
  datatype Call = Took | TookAndRaised | RaisedOnly

  lemma {:induction false} PossibleAlone(s: State, e: Event)
    requires Enabled(s, e)
    ensures Possible(s, [e]) && Reached(s, [e]) == Apply(s, e)
  {
    PossibleOneMore(s, [], e);
    assert [] + [e] == [e];
  }

  /** The state after a request: who got the job, what a poll of it is answered and how the request was. */
  ghost predicate Answered(s: State, t: State, job: Job, status: int, queued: set<Job>, shown: Answer) {
    && job in t.flows && Handed(t.api, job)
    && t.queue == s.queue + queued && Look(t.cache, job) == shown
    && t.workers == s.workers && t.polls == s.polls && t.rows == s.rows
    && (status == 202 || status == 500) && (status == 202 ==> queued == {job} && shown == Found(Pending))
  }

  /** The except branch of the request handler. If storing the failure raises too, so does the handler. */
  method RefuseJob(ghost s: State, before: seq<Event>, job: Job, added: bool, failed: Call)
    returns (events: seq<Event>)
    requires Possible(s, before) && job in Reached(s, before).flows
    requires Enabled(Reached(s, before), PublishRaises(job, added))
    ensures Possible(s, events)
    ensures Answered(Reached(s, before), Reached(s, events), job, 500, if added then {job} else {},
                     if failed == RaisedOnly then Look(Reached(s, before).cache, job) else Found(Failed))
  {
    PossibleOneMore(s, before, PublishRaises(job, added));
    events := before + [PublishRaises(job, added)];
    var e := if failed == Took then ApiStoresFailed(job) else ApiStoreRaises(job, failed == TookAndRaised);
    PossibleOneMore(s, events, e);
    events := events + [e];
  }

  /**
    The request handler after validation: pending is stored before the job is published. A store that raises
    ends the request, which the framework answers with 500.
    */
  method Predict(ghost s: State, job: Job, flowId: string, pending: Call, publish: Call, failed: Call)
    returns (events: seq<Event>, status: int)
    requires job !in s.flows
    ensures Possible(s, events)
    ensures status == 202 <==> pending == Took && publish == Took
    ensures pending == RaisedOnly ==> Answered(s, Reached(s, events), job, status, {}, Look(s.cache, job))
    ensures pending == TookAndRaised ==> Answered(s, Reached(s, events), job, status, {}, Found(Pending))
    ensures pending == Took
            ==> Answered(s, Reached(s, events), job, status, if publish == RaisedOnly then {} else {job},
                         Found(if publish != Took && failed != RaisedOnly then Failed else Pending))
  {
    if pending == Took {
      PossibleAlone(s, Submit(job, flowId));
      events := [Submit(job, flowId)];
      if publish == Took {
        PossibleOneMore(s, events, Publish(job));
        events, status := events + [Publish(job)], 202;
      } else {
        events := RefuseJob(s, events, job, publish == TookAndRaised, failed);
        status := 500;
      }
    } else {
      PossibleAlone(s, SubmitRaises(job, flowId, pending == TookAndRaised));
      events, status := [SubmitRaises(job, flowId, pending == TookAndRaised)], 500;
    }
  }

  /**
    A refused request whose job was not queued and whose failure was not stored leaves the job pending for
    good: no later poll is ever told "failed".
    */
  lemma {:induction false} RefusedCanStayPending(s: State, t: State, job: Job, events: seq<Event>)
    requires Backed(s) && job !in s.flows && Answered(s, t, job, 500, {}, Found(Pending)) && Possible(t, events)
    ensures forall i | |t.polls| <= i < |Reached(t, events).polls| && Reached(t, events).polls[i].job == job ::
              !Reached(t, events).polls[i].Terminal()
  {
    IdleJobIsSettled(t, events, job, Found(Pending));
  }

  /** What the worker's handler leaves behind: it returns with a terminal result cached, or raises to be retried. */
  ghost predicate HandlerLeaves(t: State, w: WorkerId, job: Job, attempt: nat, returned: bool) {
    && w in t.workers && t.workers[w] == Handling(job, attempt, if returned then Acking else Retrying)
    && (returned ==> job in t.cache && t.cache[job] != Pending)
  }

  /** The except branch: the failure itself becomes the cached result. */
  method ReportFailure(ghost s: State, before: seq<Event>, w: WorkerId, ghost job: Job, ghost attempt: nat, store: Call)
    returns (events: seq<Event>, returned: bool)
    requires Possible(s, before) && Busy(Reached(s, before), w)
    requires Reached(s, before).workers[w] == Handling(job, attempt, Failing)
    ensures Possible(s, events) && HandlerLeaves(Reached(s, events), w, job, attempt, returned)
    ensures returned <==> store == Took
    ensures Reached(s, events).rows == Reached(s, before).rows
    ensures Reached(s, events).cache
            == if store == RaisedOnly then Reached(s, before).cache else Reached(s, before).cache[job := Failed]
  {
    var e := if store == RaisedOnly then StoreFailedRaises(w) else StoreFailed(w, store == TookAndRaised);
    PossibleOneMore(s, before, e);
    events, returned := before + [e], store == Took;
  }

  /** The try block of the handler: the row is committed before its id is cached; what raises is reported. */
  method ClassifyAndStore(ghost s: State, w: WorkerId, ghost job: Job, ghost attempt: nat,
      alertId: Option<int>, complete: Call, fail: Call)
    returns (events: seq<Event>, returned: bool)
    requires Busy(s, w) && s.workers[w] == Handling(job, attempt, Taken) && (alertId.Some? ==> alertId.value !in s.rows)
    ensures Possible(s, events) && HandlerLeaves(Reached(s, events), w, job, attempt, returned)
    ensures returned <==> (alertId.Some? && complete == Took) || fail == Took
    ensures alertId.Some? && complete == Took
            ==> job in s.flows && Reached(s, events).cache[job] == Completed(s.flows[job], alertId.value)
                && Committed(Reached(s, events).rows, alertId.value, s.flows[job])
    ensures !(alertId.Some? && complete == Took) && fail == Took
            ==> Look(Reached(s, events).cache, job) == Found(Failed)
    ensures alertId.Some? ==> alertId.value in Reached(s, events).rows
  {
    events := [];
    if alertId.Some? {
      PossibleOneMore(s, events, Persist(w, alertId.value));
      events := events + [Persist(w, alertId.value)];
      if complete != RaisedOnly {
        PossibleOneMore(s, events, StoreCompleted(w, complete == TookAndRaised));
        events := events + [StoreCompleted(w, complete == TookAndRaised)];
        if complete == Took {
          return events, true;
        }
      } else {
        PossibleOneMore(s, events, Fail(w));
        events := events + [Fail(w)];
      }
    } else {
      PossibleOneMore(s, events, Fail(w));
      events := events + [Fail(w)];
    }
    events, returned := ReportFailure(s, events, w, job, attempt, fail);
  }

  /**
    The handler of a prediction job: a payload that is no job raises before anything else. Then classify and
    persist, and store the completed result; whatever raises on the way becomes a failed result. The alert's
    id is the row's, or none if no row was committed.
    */
  method HandlePredictJob(ghost s: State, w: WorkerId, ghost job: Job, ghost attempt: nat, decodes: bool,
      alertId: Option<int>, complete: Call, fail: Call)
    returns (events: seq<Event>, returned: bool)
    requires Busy(s, w) && s.workers[w] == Handling(job, attempt, Taken) && (alertId.Some? ==> alertId.value !in s.rows)
    ensures Possible(s, events) && HandlerLeaves(Reached(s, events), w, job, attempt, returned)
    ensures returned <==> decodes && ((alertId.Some? && complete == Took) || fail == Took)
    ensures decodes && alertId.Some? && complete == Took
            ==> job in s.flows && Reached(s, events).cache[job] == Completed(s.flows[job], alertId.value)
                && Committed(Reached(s, events).rows, alertId.value, s.flows[job])
    ensures decodes && !(alertId.Some? && complete == Took) && fail == Took
            ==> Look(Reached(s, events).cache, job) == Found(Failed)
    ensures !decodes ==> Reached(s, events).cache == s.cache && Reached(s, events).rows == s.rows
  {
    if decodes {
      events, returned := ClassifyAndStore(s, w, job, attempt, alertId, complete, fail);
    } else {
      PossibleAlone(s, Undecodable(w));
      events, returned := [Undecodable(w)], false;
    }
  }
}
