/** The leased job queue: workers claim, execute, retry and cancel jobs; stale leases are recovered. */
module JobQueue {
  import opened Common

  datatype Status = Queued | Running | Retrying | Succeeded | Failed | Cancelled

  /** One entry of a job's retry history. */
  datatype Attempt = Attempt(number: int, retryable: bool)

  datatype Job = Job(
    campaign: nat, experiment: Option<nat>, status: Status, attempts: int, maxAttempts: int, history: seq<Attempt>,
    worker: Option<string>, priority: int, createdAt: int, availableAt: int, heartbeat: Option<int>,
    cancelRequested: bool)
  {
    predicate Waiting() { status == Queued || status == Retrying }

    predicate Terminal() { status == Succeeded || status == Failed || status == Cancelled }
  }

  /** The job table, the clock, and which job each worker is inside `execute_claimed_job` for. */
  datatype Queue = Queue(jobs: seq<Job>, now: int, executing: map<string, nat>)

  datatype Outcome = Done | TransientError | PermanentError

  function NewJob(campaign: nat, experiment: Option<nat>, maxAttempts: int, priority: int, now: int): Job {
    Job(campaign, experiment, Queued, 0, maxAttempts, [], None, priority, now, now, None, false)
  }

  // ----- What each call does to one job -----

  function Claimed(job: Job, worker: string, now: int): Job {
    job.(status := Running, worker := Some(worker), attempts := job.attempts + 1, heartbeat := Some(now))
  }

  function Pow2(n: int): int
    decreases n
  {
    if n <= 0 then 1 else 2 * Pow2(n - 1)
  }

  function Backoff(attempts: int): int { if Pow2(attempts) < 60 then Pow2(attempts) else 60 }

  function RetryOrFail(job: Job, transient: bool, now: int): Job {
    var retryable := transient && job.attempts < job.maxAttempts;
    var noted := job.(history := job.history + [Attempt(job.attempts, retryable)]);
    if retryable then
      noted.(status := Retrying, availableAt := now + Backoff(job.attempts), worker := None, heartbeat := None)
    else noted.(status := Failed)
  }

  /**
    The end of an execution. A cancellation request is re-read after success; on an error it counts only when the
    executing session has it in view.
   */
  function Finished(job: Job, outcome: Outcome, sawCancel: bool, now: int): Job {
    if job.cancelRequested && (outcome == Done || sawCancel) then job.(status := Cancelled)
    else if outcome == Done then job.(status := Succeeded)
    else RetryOrFail(job, outcome == TransientError, now)
  }

  predicate Stale(job: Job, cutoff: int) {
    job.status == Running && (job.heartbeat == None || job.heartbeat.value < cutoff)
  }

  function Recovered(job: Job, cutoff: int, now: int): Job {
    if Stale(job, cutoff) then RetryOrFail(job, true, now) else job
  }

  function CancelledJob(job: Job): Job {
    if job.Terminal() then job
    else if job.status == Running then job.(cancelRequested := true)
    else job.(status := Cancelled)
  }

  function CancelledWith(job: Job, campaign: nat): Job {
    if job.campaign == campaign && job.Waiting() then job.(status := Cancelled) else job
  }

  // ----- Claim order -----

  predicate Eligible(job: Job, now: int) { job.Waiting() && job.availableAt <= now && !job.cancelRequested }

  /** Ordered by priority, highest first, then by creation time. */
  predicate Before(a: Job, b: Job) {
    a.priority > b.priority || (a.priority == b.priority && a.createdAt <= b.createdAt)
  }

  /** The first row of the ordered query, or none. */
  function Best(jobs: seq<Job>, now: int): Option<nat>
  {
    if jobs == [] then None
    else
      var n := |jobs| - 1;
      var front := Best(jobs[..n], now);
      if !Eligible(jobs[n], now) then front
      else if front.Some? && front.value < n && Before(jobs[front.value], jobs[n]) then front
      else Some(n)
  }

  /** A row the query may return first: eligible, and no eligible row strictly ahead of it. */
  predicate Choosable(jobs: seq<Job>, now: int, j: nat) {
    && j < |jobs| && Eligible(jobs[j], now)
    && forall i :: 0 <= i < |jobs| && Eligible(jobs[i], now) ==> Before(jobs[j], jobs[i])
  }

  /** The query returns an eligible job of highest priority, oldest among those, whenever one is eligible. */
  lemma {:induction false} BestIsFirst(jobs: seq<Job>, now: int)
    ensures var b := Best(jobs, now);
            && (b.Some? ==> Choosable(jobs, now, b.value))
            && (b == None <==> forall i :: 0 <= i < |jobs| ==> !Eligible(jobs[i], now))
  {
    if jobs != [] {
      var n := |jobs| - 1;
      BestIsFirst(jobs[..n], now);
      assert forall i :: 0 <= i < n ==> jobs[..n][i] == jobs[i];
    }
  }

  // ----- Steps -----

  datatype Event =
    | Enqueue(campaign: nat, experiment: Option<nat>, maxAttempts: int, priority: int)
    | Claim(worker: string, job: nat)
    | Heartbeat(worker: string, job: nat)
    | Begin(worker: string, job: nat)
    | Finish(worker: string, outcome: Outcome, sawCancel: bool)
    | Crash(worker: string)
    | Recover(staleAfter: int)
    | CancelJob(job: nat)
    | CancelCampaign(campaign: nat)
    | Tick(seconds: nat)

  function MapJobs(jobs: seq<Job>, f: Job -> Job): (r: seq<Job>)
    ensures |r| == |jobs| && forall i :: 0 <= i < |jobs| ==> r[i] == f(jobs[i])
  {
    seq(|jobs|, i requires 0 <= i < |jobs| => f(jobs[i]))
  }

  /** A call whose precondition fails changes nothing. */
  function Apply(q: Queue, e: Event): Queue {
    match e
    case Enqueue(campaign, experiment, maxAttempts, priority) =>
      q.(jobs := q.jobs + [NewJob(campaign, experiment, maxAttempts, priority, q.now)])
    case Claim(worker, j) =>
      if Choosable(q.jobs, q.now, j) then q.(jobs := q.jobs[j := Claimed(q.jobs[j], worker, q.now)]) else q
    case Heartbeat(worker, j) =>
      if j < |q.jobs| && q.jobs[j].status == Running && q.jobs[j].worker == Some(worker)
      then q.(jobs := q.jobs[j := q.jobs[j].(heartbeat := Some(q.now))]) else q
    case Begin(worker, j) =>
      if worker !in q.executing && j < |q.jobs| && q.jobs[j].status == Running && q.jobs[j].worker == Some(worker)
      then q.(executing := q.executing[worker := j]) else q
    case Finish(worker, outcome, sawCancel) =>
      if worker in q.executing && q.executing[worker] < |q.jobs| then
        var j := q.executing[worker];
        Queue(q.jobs[j := Finished(q.jobs[j], outcome, sawCancel, q.now)], q.now, q.executing - {worker})
      else q
    case Crash(worker) => q.(executing := q.executing - {worker})
    case Recover(staleAfter) => q.(jobs := MapJobs(q.jobs, (job: Job) => Recovered(job, q.now - staleAfter, q.now)))
    case CancelJob(j) => if j < |q.jobs| then q.(jobs := q.jobs[j := CancelledJob(q.jobs[j])]) else q
    case CancelCampaign(campaign) => q.(jobs := MapJobs(q.jobs, (job: Job) => CancelledWith(job, campaign)))
    case Tick(seconds) => q.(now := q.now + seconds)
  }

  function Empty(now: int): Queue { Queue([], now, map[]) }

  function Run(q: Queue, events: seq<Event>): Queue
  {
    if events == [] then q else Apply(Run(q, events[..|events| - 1]), events[|events| - 1])
  }

  /** A step that recovers no job whose worker is still executing it, and creates jobs with at least one attempt. */
  predicate Respectful(q: Queue, e: Event) {
    && (e.Recover? ==> forall w :: w in q.executing && q.executing[w] < |q.jobs| ==>
                         !Stale(q.jobs[q.executing[w]], q.now - e.staleAfter))
    && (e.Enqueue? ==> e.maxAttempts >= 1)
  }

  predicate RespectfulRun(q: Queue, events: seq<Event>) {
    forall i :: 0 <= i < |events| ==> Respectful(Run(q, events[..i]), events[i])
  }

  lemma RespectfulPrefix(q: Queue, events: seq<Event>)
    requires events != [] && RespectfulRun(q, events)
    ensures RespectfulRun(q, events[..|events| - 1])
    ensures Respectful(Run(q, events[..|events| - 1]), events[|events| - 1])
  {
    var front := events[..|events| - 1];
    assert forall i :: 0 <= i < |front| ==> front[..i] == events[..i] && front[i] == events[i];
  }

  // ----- The invariant -----

  /** Attempts 1..n in order, all of them retryable. */
  predicate AllRetryable(history: seq<Attempt>, n: int) {
    |history| == n && forall i :: 0 <= i < n ==> history[i] == Attempt(i + 1, true)
  }

  /** What each status says about a job's attempts and history. */
  predicate JobOk(job: Job) {
    && job.maxAttempts >= 1 && 0 <= job.attempts <= job.maxAttempts
    && match job.status
       case Queued => job.attempts == 0 && job.history == [] && job.worker == None
       case Retrying => 1 <= job.attempts < job.maxAttempts && AllRetryable(job.history, job.attempts) && job.worker == None
       case Running => 1 <= job.attempts && AllRetryable(job.history, job.attempts - 1) && job.worker.Some?
       case Succeeded => 1 <= job.attempts && AllRetryable(job.history, job.attempts - 1)
       case Failed =>
         && 1 <= job.attempts == |job.history| && AllRetryable(job.history[..job.attempts - 1], job.attempts - 1)
         && job.history[job.attempts - 1] == Attempt(job.attempts, false)
       case Cancelled =>
         AllRetryable(job.history, job.attempts) || (1 <= job.attempts && AllRetryable(job.history, job.attempts - 1))
  }

  /** Every job is well formed, and a worker executes only a running job it holds the lease of. */
  ghost predicate Inv(q: Queue) {
    && (forall i :: 0 <= i < |q.jobs| ==> JobOk(q.jobs[i]))
    && (forall w :: w in q.executing ==>
          && q.executing[w] < |q.jobs|
          && q.jobs[q.executing[w]].status == Running && q.jobs[q.executing[w]].worker == Some(w))
  }

  lemma RetryOrFailOk(job: Job, transient: bool, now: int)
    requires JobOk(job) && job.status == Running
    ensures JobOk(RetryOrFail(job, transient, now))
    ensures RetryOrFail(job, transient, now).Waiting() || RetryOrFail(job, transient, now).Terminal()
  {
    var after := RetryOrFail(job, transient, now);
    if after.status == Failed {
      assert after.history[..job.attempts - 1] == job.history;
    }
  }

  lemma ClaimedOk(job: Job, worker: string, now: int)
    requires JobOk(job) && job.Waiting()
    ensures JobOk(Claimed(job, worker, now))
  {
  }

  lemma FinishedOk(job: Job, outcome: Outcome, sawCancel: bool, now: int)
    requires JobOk(job) && job.status == Running
    ensures JobOk(Finished(job, outcome, sawCancel, now))
  {
    RetryOrFailOk(job, outcome == TransientError, now);
    hide RetryOrFail;
  }

  lemma RecoveredOk(job: Job, cutoff: int, now: int)
    requires JobOk(job)
    ensures JobOk(Recovered(job, cutoff, now))
  {
    hide RetryOrFail, JobOk;
    if Stale(job, cutoff) {
      RetryOrFailOk(job, true, now);
    }
  }

  lemma CancelledOk(job: Job, campaign: nat)
    requires JobOk(job)
    ensures JobOk(CancelledJob(job)) && JobOk(CancelledWith(job, campaign))
  {
  }

  lemma StepKeepsInv(q: Queue, e: Event)
    requires Inv(q) && Respectful(q, e)
    ensures Inv(Apply(q, e))
  {
    hide JobOk, Claimed, RetryOrFail, Choosable;
    var t := Apply(q, e);
    JobsStayOk(q, e);
    forall w | w in t.executing
      ensures t.executing[w] < |t.jobs|
      ensures t.jobs[t.executing[w]].status == Running && t.jobs[t.executing[w]].worker == Some(w)
    {
      LeaseKept(q, e, w);
    }
  }

  lemma JobsStayOk(q: Queue, e: Event)
    requires Inv(q) && Respectful(q, e)
    ensures forall i :: 0 <= i < |Apply(q, e).jobs| ==> JobOk(Apply(q, e).jobs[i])
  {
    forall i | 0 <= i < |Apply(q, e).jobs|
      ensures JobOk(Apply(q, e).jobs[i])
    {
      JobStaysOk(q, e, i);
    }
  }

  lemma JobStaysOk(q: Queue, e: Event, i: nat)
    requires Inv(q) && Respectful(q, e) && i < |Apply(q, e).jobs|
    ensures JobOk(Apply(q, e).jobs[i])
  {
    hide Claimed, RetryOrFail, Finished, Recovered, CancelledJob, CancelledWith, JobOk, Before;
    if i >= |q.jobs| {
      NewJobOk(e.campaign, e.experiment, e.maxAttempts, e.priority, q.now);
      return;
    }
    match e
    case Claim(worker, j) =>
      if i == j && Choosable(q.jobs, q.now, j) { ClaimedOk(q.jobs[i], worker, q.now); }
    case Heartbeat(_, j) =>
      HeartbeatOk(q.jobs[i], q.now);
    case Finish(worker, outcome, sawCancel) =>
      if worker in q.executing && q.executing[worker] == i { FinishedOk(q.jobs[i], outcome, sawCancel, q.now); }
    case Recover(staleAfter) => RecoveredOk(q.jobs[i], q.now - staleAfter, q.now);
    case CancelJob(_) => CancelledOk(q.jobs[i], 0);
    case CancelCampaign(campaign) => CancelledOk(q.jobs[i], campaign);
    case _ =>
  }

  lemma NewJobOk(campaign: nat, experiment: Option<nat>, maxAttempts: int, priority: int, now: int)
    requires maxAttempts >= 1
    ensures JobOk(NewJob(campaign, experiment, maxAttempts, priority, now))
  {
  }

  lemma HeartbeatOk(job: Job, now: int)
    requires JobOk(job)
    ensures JobOk(job.(heartbeat := Some(now)))
  {
  }

  lemma LeaseKept(q: Queue, e: Event, w: string)
    requires Inv(q) && Respectful(q, e) && w in Apply(q, e).executing
    ensures var t := Apply(q, e);
            && t.executing[w] < |t.jobs|
            && t.jobs[t.executing[w]].status == Running && t.jobs[t.executing[w]].worker == Some(w)
  {
    hide RetryOrFail, JobOk;
  }

  /** After every lease-respecting interleaving of any workers, each status means what it says. */
  lemma {:induction false} InvariantAlways(now: int, events: seq<Event>)
    requires RespectfulRun(Empty(now), events)
    ensures Inv(Run(Empty(now), events))
  {
    hide Apply, Inv;
    if events == [] {
      EmptyIsInv(now);
    } else {
      RespectfulPrefix(Empty(now), events);
      InvariantAlways(now, events[..|events| - 1]);
      StepKeepsInv(Run(Empty(now), events[..|events| - 1]), events[|events| - 1]);
    }
  }

  lemma EmptyIsInv(now: int)
    ensures Inv(Empty(now))
  {
  }
}
