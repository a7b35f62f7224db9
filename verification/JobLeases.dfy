/** What every call does to one job, field by field, and how long a lease lasts. */
module JobLeases {
  import opened Common
  import opened JobQueue

  // ----- Which job is taken -----

  /** Ready to be taken: queued or retrying, its time has come, and nobody asked to cancel it. */
  predicate Ready(job: Job, now: int) {
    (job.status == Queued || job.status == Retrying) && now >= job.availableAt && !job.cancelRequested
  }

  /** The next job: ready, of highest priority among the ready ones, and created no later than any as urgent. */
  predicate IsNext(jobs: seq<Job>, now: int, j: nat) {
    && j < |jobs| && Ready(jobs[j], now)
    && forall i :: 0 <= i < |jobs| && Ready(jobs[i], now) ==>
         && jobs[i].priority <= jobs[j].priority
         && (jobs[i].priority == jobs[j].priority ==> jobs[j].createdAt <= jobs[i].createdAt)
  }

  /** The query takes the next job, whenever one is ready. */
  lemma {:induction false} NextIsTaken(jobs: seq<Job>, now: int)
    ensures var b := Best(jobs, now);
            && (b.Some? ==> IsNext(jobs, now, b.value))
            && (b == None <==> forall i :: 0 <= i < |jobs| ==> !Ready(jobs[i], now))
  {
    BestIsFirst(jobs, now);
    forall i | 0 <= i < |jobs|
      ensures Ready(jobs[i], now) <==> Eligible(jobs[i], now)
    {
    }
  }

  lemma {:induction false} ChoosableIsNext(jobs: seq<Job>, now: int, j: nat)
    ensures Choosable(jobs, now, j) <==> IsNext(jobs, now, j)
  {
    forall i | 0 <= i < |jobs|
      ensures Ready(jobs[i], now) <==> Eligible(jobs[i], now)
    {
    }
  }

  // ----- What ends an attempt -----

  /** Seconds a retry waits: two, four, and so on, and never more than a minute. */
  function Delay(attempts: int): int { if attempts >= 6 then 60 else Pow2(attempts) }

  lemma DelayIsBackoff(attempts: int)
    requires attempts >= 0
    ensures Backoff(attempts) == Delay(attempts)
  {
    assert Pow2(2) == 4 && Pow2(4) == 16 && Pow2(5) == 32;
    if attempts >= 6 { Doubles(attempts); }
  }

  lemma {:induction false} Doubles(attempts: int)
    requires attempts >= 6
    ensures Pow2(attempts) >= 64
    decreases attempts
  {
    if attempts > 6 {
      Doubles(attempts - 1);
    } else {
      assert Pow2(3) == 8;
    }
  }

  /** A failed attempt goes on the record; it is tried again after the delay, without lease, or the job has failed. */
  predicate AttemptFailed(job: Job, after: Job, again: bool, now: int) {
    && after.history == job.history + [Attempt(job.attempts, again)]
    && after.status == (if again then Retrying else Failed)
    && after.availableAt == (if again then now + Delay(job.attempts) else job.availableAt)
    && after.worker == (if again then None else job.worker)
    && after.heartbeat == (if again then None else job.heartbeat)
    && after.attempts == job.attempts && after.cancelRequested == job.cancelRequested
    && SameJob(job, after)
  }

  /** What no call changes. */
  predicate SameJob(a: Job, b: Job) {
    && a.campaign == b.campaign && a.experiment == b.experiment && a.maxAttempts == b.maxAttempts
    && a.priority == b.priority && a.createdAt == b.createdAt
  }

  /** Nobody has been heard of for longer than the limit. */
  predicate Silent(job: Job, now: int, limit: int) {
    job.status == Running && (job.heartbeat.None? || now - job.heartbeat.value > limit)
  }

  /** The row after a call, said from what the call is for. */
  predicate Becomes(q: Queue, e: Event, j: nat, after: Job)
    requires j < |q.jobs|
  {
    var job := q.jobs[j];
    match e
    case Claim(worker, k) =>
      if k == j && IsNext(q.jobs, q.now, j)
      then after == job.(status := Running, worker := Some(worker), attempts := job.attempts + 1, heartbeat := Some(q.now))
      else after == job
    case Heartbeat(worker, k) =>
      if k == j && job.status == Running && job.worker == Some(worker) then after == job.(heartbeat := Some(q.now))
      else after == job
    case Finish(worker, outcome, sawCancel) =>
      if !(worker in q.executing && q.executing[worker] == j) then after == job
      else if job.cancelRequested && (outcome == Done || sawCancel) then after == job.(status := Cancelled)
      else if outcome == Done then after == job.(status := Succeeded)
      else AttemptFailed(job, after, outcome == TransientError && job.attempts < job.maxAttempts, q.now)
    case Recover(limit) =>
      if Silent(job, q.now, limit) then AttemptFailed(job, after, job.attempts < job.maxAttempts, q.now) else after == job
    case CancelJob(k) =>
      if k != j then after == job
      else if job.status == Running then after == job.(cancelRequested := true)
      else if job.status == Queued || job.status == Retrying then after == job.(status := Cancelled)
      else after == job
    case CancelCampaign(campaign) =>
      if campaign == job.campaign && (job.status == Queued || job.status == Retrying)
      then after == job.(status := Cancelled) else after == job
    case _ => after == job
  }

  /** Every call leaves every job as `Becomes` says; only an enqueue adds one, queued, untried and available at once. */
  lemma JobsBecome(q: Queue, e: Event, j: nat)
    requires forall i :: 0 <= i < |q.jobs| ==> q.jobs[i].attempts >= 0
    requires j < |Apply(q, e).jobs|
    ensures j < |q.jobs| ==> Becomes(q, e, j, Apply(q, e).jobs[j])
    ensures |Apply(q, e).jobs| == |q.jobs| + if e.Enqueue? then 1 else 0
    ensures j == |q.jobs| ==>
              var job := Apply(q, e).jobs[j];
              && job.status == Queued && job.attempts == 0 && job.history == [] && job.worker == None
              && job.heartbeat == None && !job.cancelRequested && job.createdAt == q.now == job.availableAt
              && job.campaign == e.campaign && job.experiment == e.experiment && job.maxAttempts == e.maxAttempts
              && job.priority == e.priority
    ensures Apply(q, e).now == q.now + if e.Tick? then e.seconds else 0
  {
    hide Choosable, Ready, Backoff, Delay;
    if j < |q.jobs| {
      DelayIsBackoff(q.jobs[j].attempts);
    }
    match e
    case Claim(_, k) => ChoosableIsNext(q.jobs, q.now, k);
    case _ =>
  }

  /** Who is executing what: started by a lease holder who was idle, ended by its finish or crash. */
  lemma ExecutionsBecome(q: Queue, e: Event, w: string)
    requires forall v :: v in q.executing ==> q.executing[v] < |q.jobs|
    ensures w in Apply(q, e).executing <==>
            || (w in q.executing && e != Crash(w) && !(e.Finish? && e.worker == w))
            || (w !in q.executing && e.Begin? && e.worker == w && e.job < |q.jobs|
                && q.jobs[e.job].status == Running && q.jobs[e.job].worker == Some(w))
    ensures w in Apply(q, e).executing ==>
              Apply(q, e).executing[w] == if w in q.executing then q.executing[w] else e.job
  {
    hide Choosable;
  }

  // ----- How long a lease lasts -----

  /** The time a job's holder was last heard of: the last heartbeat of this run, or the one it started with. */
  function LastHeard(q: Queue, events: seq<Event>, j: nat, w: string, from: int): int
  {
    if events == [] then from
    else
      var front := events[..|events| - 1];
      if events[|events| - 1] == Heartbeat(w, j) then Run(q, front).now else LastHeard(q, front, j, w, from)
  }

  /** No execution of the job ends in this run. */
  ghost predicate NotFinished(q: Queue, events: seq<Event>, j: nat) {
    forall i :: 0 <= i < |events| && events[i].Finish? ==>
      var before := Run(q, events[..i]);
      events[i].worker in before.executing ==> before.executing[events[i].worker] != j
  }

  /** Every recovery comes within its limit of the time the holder was last heard of. */
  ghost predicate HeardInTime(q: Queue, events: seq<Event>, j: nat, w: string, from: int) {
    forall i :: 0 <= i < |events| && events[i].Recover? ==>
      Run(q, events[..i]).now - LastHeard(q, events[..i], j, w, from) <= events[i].staleAfter
  }

  /**
    A lease lasts: whatever else happens, a running job whose holder is heard of within the limit of every recovery, by
    its claim or its heartbeats, stays with that holder in the same attempt until its execution ends.
   */
  lemma {:induction false} LeaseLasts(q: Queue, events: seq<Event>, j: nat, w: string, from: int)
    requires j < |q.jobs| && q.jobs[j].status == Running && q.jobs[j].worker == Some(w)
    requires q.jobs[j].heartbeat == Some(from)
    requires NotFinished(q, events, j) && HeardInTime(q, events, j, w, from)
    ensures j < |Run(q, events).jobs|
    ensures var job := Run(q, events).jobs[j];
            && job.status == Running && job.worker == Some(w) && job.attempts == q.jobs[j].attempts
            && job.history == q.jobs[j].history && job.heartbeat == Some(LastHeard(q, events, j, w, from))
  {
    if events != [] {
      var front, e := events[..|events| - 1], events[|events| - 1];
      LeasePrefix(q, events, j, w, from);
      LeaseLasts(q, front, j, w, from);
      LeaseStep(Run(q, front), e, j, w, LastHeard(q, front, j, w, from));
      hide Apply, NotFinished, HeardInTime;
    }
  }

  lemma LeasePrefix(q: Queue, events: seq<Event>, j: nat, w: string, from: int)
    requires events != [] && NotFinished(q, events, j) && HeardInTime(q, events, j, w, from)
    ensures var front, e := events[..|events| - 1], events[|events| - 1];
            && NotFinished(q, front, j) && HeardInTime(q, front, j, w, from)
            && (e.Finish? && e.worker in Run(q, front).executing ==> Run(q, front).executing[e.worker] != j)
            && (e.Recover? ==> Run(q, front).now - LastHeard(q, front, j, w, from) <= e.staleAfter)
  {
    hide Run, LastHeard;
    var front := events[..|events| - 1];
    assert forall i :: 0 <= i < |front| ==> front[..i] == events[..i] && front[i] == events[i];
  }

  lemma LeaseStep(q: Queue, e: Event, j: nat, w: string, heard: int)
    requires j < |q.jobs| && q.jobs[j].status == Running && q.jobs[j].worker == Some(w) && q.jobs[j].heartbeat == Some(heard)
    requires e.Finish? && e.worker in q.executing ==> q.executing[e.worker] != j
    requires e.Recover? ==> q.now - heard <= e.staleAfter
    ensures var t := Apply(q, e);
            && j < |t.jobs| && t.jobs[j].status == Running && t.jobs[j].worker == Some(w)
            && t.jobs[j].attempts == q.jobs[j].attempts && t.jobs[j].history == q.jobs[j].history
            && t.jobs[j].heartbeat == Some(if e == Heartbeat(w, j) then q.now else heard)
  {
    hide Before;
  }

  /** And it lasts no longer: a recovery after more silence than its limit ends the attempt. */
  lemma SilenceEndsLease(q: Queue, limit: int, j: nat)
    requires j < |q.jobs|
    ensures Apply(q, Recover(limit)).jobs[j] != q.jobs[j] <==> Silent(q.jobs[j], q.now, limit)
    ensures Silent(q.jobs[j], q.now, limit) ==>
              var after := Apply(q, Recover(limit)).jobs[j];
              after.status == (if q.jobs[j].attempts < q.jobs[j].maxAttempts then Retrying else Failed)
              && after.history == q.jobs[j].history + [Attempt(q.jobs[j].attempts, after.status == Retrying)]
  {
    hide Backoff;
  }
}
