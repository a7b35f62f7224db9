/** What holds over whole runs of the queue: terminal jobs stay, work is bounded, and what can go wrong. */
module JobQueueRuns {
  import opened Common
  import opened JobQueue

  // ----- Terminal jobs never change -----

  /**
    Exactly when a step changes a terminal job, in any queue whatever: when an execution of that very job finishes,
    unless all it would write is the status that is already there.
   */
  lemma TerminalChangesExactly(q: Queue, e: Event, j: nat)
    requires j < |q.jobs| && q.jobs[j].Terminal()
    ensures j < |Apply(q, e).jobs|
    ensures Apply(q, e).jobs[j] != q.jobs[j] <==>
            && e.Finish? && e.worker in q.executing && q.executing[e.worker] == j
            && !(if q.jobs[j].cancelRequested && (e.outcome == Done || e.sawCancel) then q.jobs[j].status == Cancelled
                 else e.outcome == Done && q.jobs[j].status == Succeeded)
  {
    hide Before, Backoff;
    if e.Finish? && e.worker in q.executing && q.executing[e.worker] == j {
      HistoryGrows(q.jobs[j], e.outcome == TransientError, q.now);
    }
  }

  lemma HistoryGrows(job: Job, transient: bool, now: int)
    ensures |RetryOrFail(job, transient, now).history| == |job.history| + 1
    ensures RetryOrFail(job, transient, now) != job
  {
  }

  /** While leases are respected no worker executes a terminal job, so none changes. */
  lemma TerminalStep(q: Queue, e: Event, j: nat)
    requires Inv(q) && Respectful(q, e) && j < |q.jobs| && q.jobs[j].Terminal()
    ensures j < |Apply(q, e).jobs| && Apply(q, e).jobs[j] == q.jobs[j]
  {
    hide Apply, JobOk;
    TerminalChangesExactly(q, e, j);
  }

  /** Over every lease-respecting continuation, a succeeded, failed or cancelled job keeps its whole row. */
  lemma {:induction false} TerminalIsForever(q: Queue, events: seq<Event>, j: nat)
    requires Inv(q) && RespectfulRun(q, events) && j < |q.jobs| && q.jobs[j].Terminal()
    ensures Inv(Run(q, events))
    ensures j < |Run(q, events).jobs| && Run(q, events).jobs[j] == q.jobs[j]
  {
    hide Apply, Inv;
    if events != [] {
      RespectfulPrefix(q, events);
      TerminalIsForever(q, events[..|events| - 1], j);
      StepKeepsInv(Run(q, events[..|events| - 1]), events[|events| - 1]);
      TerminalStep(Run(q, events[..|events| - 1]), events[|events| - 1], j);
    }
  }

  // ----- A measure that every piece of work uses up -----

  /** Work a job can still cause: two units for each attempt left, and one while an attempt runs. */
  function Work(job: Job): int {
    if job.Terminal() then 0
    else 2 * (job.maxAttempts - job.attempts) + if job.status == Running then 1 else 0
  }

  function TotalWork(jobs: seq<Job>): int
  {
    if jobs == [] then 0 else TotalWork(jobs[..|jobs| - 1]) + Work(jobs[|jobs| - 1])
  }

  lemma {:induction false} WorkAtOne(jobs: seq<Job>, j: nat, job: Job)
    requires j < |jobs|
    ensures TotalWork(jobs[j := job]) == TotalWork(jobs) - Work(jobs[j]) + Work(job)
  {
    hide Work;
    var n := |jobs| - 1;
    if j == n {
      assert jobs[j := job][..n] == jobs[..n];
    } else {
      assert jobs[j := job][..n] == jobs[..n][j := job];
      WorkAtOne(jobs[..n], j, job);
    }
  }

  lemma {:induction false} WorkPointwise(jobs: seq<Job>, after: seq<Job>)
    requires |after| == |jobs| && forall i :: 0 <= i < |jobs| ==> Work(after[i]) <= Work(jobs[i])
    ensures TotalWork(after) <= TotalWork(jobs)
    ensures (exists i :: 0 <= i < |jobs| && Work(after[i]) < Work(jobs[i])) ==> TotalWork(after) < TotalWork(jobs)
  {
    hide Work;
    if jobs != [] {
      WorkPointwise(jobs[..|jobs| - 1], after[..|jobs| - 1]);
      if i :| 0 <= i < |jobs| && Work(after[i]) < Work(jobs[i]) {
        if i < |jobs| - 1 {
          assert Work(after[..|jobs| - 1][i]) < Work(jobs[..|jobs| - 1][i]);
        }
      }
    }
  }

  lemma {:induction false} WorkNonNegative(jobs: seq<Job>)
    requires forall i :: 0 <= i < |jobs| ==> JobOk(jobs[i])
    ensures TotalWork(jobs) >= 0
  {
    hide JobOk, Work;
    if jobs != [] {
      WorkNonNegative(jobs[..|jobs| - 1]);
      WorkOfOne(jobs[|jobs| - 1]);
    }
  }

  lemma WorkOfOne(job: Job)
    requires JobOk(job)
    ensures Work(job) >= 0
    ensures job.Waiting() ==> Work(job) >= 2
  {
  }

  /** Steps that use up work: a claim, a finish, a recovery of a stale job, and a cancellation of a waiting one. */
  predicate Spends(q: Queue, e: Event) {
    match e
    case Claim(_, j) => Choosable(q.jobs, q.now, j)
    case Finish(worker, _, _) => worker in q.executing
    case Recover(staleAfter) => exists i :: 0 <= i < |q.jobs| && Stale(q.jobs[i], q.now - staleAfter)
    case CancelJob(j) => j < |q.jobs| && q.jobs[j].Waiting()
    case CancelCampaign(c) => exists i :: 0 <= i < |q.jobs| && q.jobs[i].campaign == c && q.jobs[i].Waiting()
    case _ => false
  }

  lemma WorkOfSteps(job: Job, worker: string, now: int, outcome: Outcome, sawCancel: bool, cutoff: int, campaign: nat)
    requires JobOk(job)
    ensures job.Waiting() ==> Work(Claimed(job, worker, now)) == Work(job) - 1
    ensures job.status == Running ==> Work(Finished(job, outcome, sawCancel, now)) < Work(job)
    ensures Work(Recovered(job, cutoff, now)) <= Work(job)
    ensures Stale(job, cutoff) ==> Work(Recovered(job, cutoff, now)) < Work(job)
    ensures Work(CancelledJob(job)) <= Work(job) && (job.Waiting() ==> Work(CancelledJob(job)) < Work(job))
    ensures Work(CancelledWith(job, campaign)) <= Work(job)
    ensures job.campaign == campaign && job.Waiting() ==> Work(CancelledWith(job, campaign)) < Work(job)
  {
    hide AllRetryable, Backoff;
  }

  /** No step but an enqueue adds work, and every claim, finish, recovery and immediate cancel strictly removes some. */
  lemma WorkDrops(q: Queue, e: Event)
    requires Inv(q) && Respectful(q, e) && !e.Enqueue?
    ensures TotalWork(Apply(q, e).jobs) <= TotalWork(q.jobs)
    ensures Spends(q, e) ==> TotalWork(Apply(q, e).jobs) < TotalWork(q.jobs)
  {
    hide TotalWork, Work, JobOk, Claimed, Finished, Recovered, CancelledJob, CancelledWith, RetryOrFail, Before, Stale;
    match e
    case Claim(worker, j) =>
      if Choosable(q.jobs, q.now, j) {
        WorkOfSteps(q.jobs[j], worker, q.now, Done, false, 0, 0);
        WorkAtOne(q.jobs, j, Claimed(q.jobs[j], worker, q.now));
      }
    case Heartbeat(worker, j) =>
      if j < |q.jobs| {
        HeartbeatWork(q.jobs[j], q.now);
        WorkAtOne(q.jobs, j, q.jobs[j].(heartbeat := Some(q.now)));
      }
    case Finish(worker, outcome, sawCancel) =>
      if worker in q.executing {
        var j := q.executing[worker];
        WorkOfSteps(q.jobs[j], worker, q.now, outcome, sawCancel, 0, 0);
        WorkAtOne(q.jobs, j, Finished(q.jobs[j], outcome, sawCancel, q.now));
      }
    case Recover(staleAfter) =>
      forall i | 0 <= i < |q.jobs|
        ensures Work(Apply(q, e).jobs[i]) <= Work(q.jobs[i])
        ensures Stale(q.jobs[i], q.now - staleAfter) ==> Work(Apply(q, e).jobs[i]) < Work(q.jobs[i])
      {
        WorkOfSteps(q.jobs[i], "", q.now, Done, false, q.now - staleAfter, 0);
      }
      WorkPointwise(q.jobs, Apply(q, e).jobs);
    case CancelJob(j) =>
      if j < |q.jobs| {
        WorkOfSteps(q.jobs[j], "", q.now, Done, false, 0, 0);
        WorkAtOne(q.jobs, j, CancelledJob(q.jobs[j]));
      }
    case CancelCampaign(c) =>
      forall i | 0 <= i < |q.jobs|
        ensures Work(Apply(q, e).jobs[i]) <= Work(q.jobs[i])
        ensures q.jobs[i].campaign == c && q.jobs[i].Waiting() ==> Work(Apply(q, e).jobs[i]) < Work(q.jobs[i])
      {
        WorkOfSteps(q.jobs[i], "", q.now, Done, false, 0, c);
      }
      WorkPointwise(q.jobs, Apply(q, e).jobs);
    case _ =>
  }

  lemma HeartbeatWork(job: Job, now: int)
    ensures Work(job.(heartbeat := Some(now))) == Work(job)
  {
  }

  /** How many steps of a run used up work. */
  function Spent(q: Queue, events: seq<Event>): nat
  {
    if events == [] then 0
    else
      var front := events[..|events| - 1];
      Spent(q, front) + if Spends(Run(q, front), events[|events| - 1]) then 1 else 0
  }

  /** Over a fixed set of jobs, a run can claim, finish, recover and cancel only as often as the work it starts with. */
  lemma {:induction false} WorkBoundsRun(q: Queue, events: seq<Event>)
    requires Inv(q) && RespectfulRun(q, events) && forall i :: 0 <= i < |events| ==> !events[i].Enqueue?
    ensures Inv(Run(q, events))
    ensures 0 <= TotalWork(Run(q, events).jobs) <= TotalWork(q.jobs) - Spent(q, events)
  {
    hide Apply, Spends, TotalWork, Inv;
    if events != [] {
      RespectfulPrefix(q, events);
      WorkBoundsRun(q, events[..|events| - 1]);
      StepKeepsInv(Run(q, events[..|events| - 1]), events[|events| - 1]);
      WorkDrops(Run(q, events[..|events| - 1]), events[|events| - 1]);
    }
    InvWork(Run(q, events));
  }

  lemma InvWork(q: Queue)
    requires Inv(q)
    ensures TotalWork(q.jobs) >= 0
  {
    WorkNonNegative(q.jobs);
  }

  // ----- Retries wait -----

  lemma {:induction false} Pow2Grows(m: int, n: int)
    requires 0 <= m <= n
    ensures 1 <= Pow2(m) <= Pow2(n) && (m < n ==> 2 * Pow2(m) <= Pow2(n))
    decreases n
  {
    if m < n {
      Pow2Grows(m, n - 1);
    } else if n > 0 {
      Pow2Grows(n - 1, n - 1);
    }
  }

  /** The wait before a retry. */
  function Wait(attempts: int): int { MinInt(60, Pow2(attempts)) }

  /**
    Every retry waits: two seconds after the first attempt, twice as long after each further one, up to a minute. It is
    eligible exactly from then on, unless a cancellation was requested.
   */
  lemma RetriesWait(job: Job, now: int)
    requires 1 <= job.attempts < job.maxAttempts
    ensures var retry := RetryOrFail(job, true, now);
            && retry.status == Retrying && retry.availableAt == now + Wait(job.attempts)
            && forall t :: Eligible(retry, t) <==> t >= now + Wait(job.attempts) && !job.cancelRequested
    ensures Wait(1) == 2 && Wait(job.attempts + 1) == MinInt(60, 2 * Wait(job.attempts)) && 2 <= Wait(job.attempts) <= 60
  {
    Pow2Grows(1, job.attempts);
    assert Pow2(0) == 1 && Pow2(1) == 2 && Pow2(job.attempts + 1) == 2 * Pow2(job.attempts);
  }

  // ----- Claims are bounded by the attempts that are left -----

  function Allowance(jobs: seq<Job>): int
  {
    if jobs == [] then 0
    else Allowance(jobs[..|jobs| - 1]) + (jobs[|jobs| - 1].maxAttempts - jobs[|jobs| - 1].attempts)
  }

  lemma {:induction false} AllowanceAtOne(jobs: seq<Job>, j: nat, job: Job)
    requires j < |jobs|
    ensures Allowance(jobs[j := job])
            == Allowance(jobs) - (jobs[j].maxAttempts - jobs[j].attempts) + (job.maxAttempts - job.attempts)
  {
    var n := |jobs| - 1;
    if j == n {
      assert jobs[j := job][..n] == jobs[..n];
    } else {
      assert jobs[j := job][..n] == jobs[..n][j := job];
      AllowanceAtOne(jobs[..n], j, job);
    }
  }

  lemma {:induction false} AllowanceSame(jobs: seq<Job>, after: seq<Job>)
    requires |after| == |jobs|
    requires forall i :: 0 <= i < |jobs| ==>
               after[i].attempts == jobs[i].attempts && after[i].maxAttempts == jobs[i].maxAttempts
    ensures Allowance(after) == Allowance(jobs)
  {
    if jobs != [] {
      AllowanceSame(jobs[..|jobs| - 1], after[..|jobs| - 1]);
    }
  }

  lemma {:induction false} AllowanceNonNegative(jobs: seq<Job>)
    requires forall i :: 0 <= i < |jobs| ==> JobOk(jobs[i])
    ensures Allowance(jobs) >= 0
  {
    if jobs != [] {
      AllowanceNonNegative(jobs[..|jobs| - 1]);
    }
  }

  lemma AllowanceStep(q: Queue, e: Event)
    requires !e.Enqueue?
    ensures Allowance(Apply(q, e).jobs)
            == Allowance(q.jobs) - if e.Claim? && Choosable(q.jobs, q.now, e.job) then 1 else 0
  {
    hide Allowance, Before, Backoff;
    if e.Claim? && Choosable(q.jobs, q.now, e.job) {
      AllowanceAtOne(q.jobs, e.job, Claimed(q.jobs[e.job], e.worker, q.now));
    } else {
      AllowanceSame(q.jobs, Apply(q, e).jobs);
    }
  }

  function Claims(q: Queue, events: seq<Event>): nat
  {
    if events == [] then 0
    else
      var front, last := events[..|events| - 1], events[|events| - 1];
      Claims(q, front)
      + if last.Claim? && Choosable(Run(q, front).jobs, Run(q, front).now, last.job) then 1 else 0
  }

  /** A fixed set of jobs is claimed at most as often as its attempts allow, however many workers race for it. */
  lemma {:induction false} ClaimsAreBounded(q: Queue, events: seq<Event>)
    requires Inv(q) && RespectfulRun(q, events) && forall i :: 0 <= i < |events| ==> !events[i].Enqueue?
    ensures Claims(q, events) == Allowance(q.jobs) - Allowance(Run(q, events).jobs) <= Allowance(q.jobs)
    ensures Inv(Run(q, events))
  {
    hide Apply, Allowance, Choosable, Inv;
    if events != [] {
      RespectfulPrefix(q, events);
      ClaimsAreBounded(q, events[..|events| - 1]);
      StepKeepsInv(Run(q, events[..|events| - 1]), events[|events| - 1]);
      AllowanceStep(Run(q, events[..|events| - 1]), events[|events| - 1]);
    }
    InvAllowance(Run(q, events));
  }

  lemma InvAllowance(q: Queue)
    requires Inv(q)
    ensures Allowance(q.jobs) >= 0
  {
    AllowanceNonNegative(q.jobs);
  }

  // ----- What the queue's document promises and the queue does not keep -----

  /** A waiting job with a cancellation request: it is never eligible, and only another cancellation ends it. */
  predicate Stranded(job: Job) { job.status == Retrying && job.cancelRequested }

  /** Any number of any other steps, by any workers, leaves a stranded job exactly as it is. */
  lemma {:induction false} StrandedStays(q: Queue, events: seq<Event>, j: nat)
    requires Inv(q) && RespectfulRun(q, events) && j < |q.jobs| && Stranded(q.jobs[j])
    requires forall i :: 0 <= i < |events| ==>
               events[i] != CancelJob(j) && events[i] != CancelCampaign(q.jobs[j].campaign)
    ensures Inv(Run(q, events))
    ensures j < |Run(q, events).jobs| && Run(q, events).jobs[j] == q.jobs[j]
  {
    hide Apply, Inv;
    if events != [] {
      RespectfulPrefix(q, events);
      StrandedStays(q, events[..|events| - 1], j);
      StepKeepsInv(Run(q, events[..|events| - 1]), events[|events| - 1]);
      StrandedStep(Run(q, events[..|events| - 1]), events[|events| - 1], j);
    }
  }

  lemma StrandedStep(q: Queue, e: Event, j: nat)
    requires Inv(q) && Respectful(q, e) && j < |q.jobs| && Stranded(q.jobs[j])
    requires e != CancelJob(j) && e != CancelCampaign(q.jobs[j].campaign)
    ensures j < |Apply(q, e).jobs| && Apply(q, e).jobs[j] == q.jobs[j]
  {
    hide RetryOrFail, JobOk, Before;
  }

  /**
    Exactly when a step strands a job: it was running with its cancellation requested and an attempt left, and either
    its lease is recovered, or its execution ends in a transient error without the request in its session's view.
   */
  lemma StrandsExactly(q: Queue, e: Event, j: nat)
    requires Inv(q) && Respectful(q, e) && j < |q.jobs| && !Stranded(q.jobs[j])
    ensures j < |Apply(q, e).jobs|
    ensures Stranded(Apply(q, e).jobs[j]) <==>
            var job := q.jobs[j];
            && job.status == Running && job.cancelRequested && job.attempts < job.maxAttempts
            && (|| (e.Recover? && Stale(job, q.now - e.staleAfter))
                || (e.Finish? && e.worker in q.executing && q.executing[e.worker] == j
                    && e.outcome == TransientError && !e.sawCancel))
  {
    hide JobOk, Before, Backoff;
  }

  /** A lease that expires after its job's cancellation was requested: the job is recovered, and stranded. */
  lemma RecoveryCanStrand()
    ensures var events := [Enqueue(0, None, 3, 0), Claim("a", 0), CancelJob(0), Tick(400), Recover(300)];
            var q := Run(Empty(0), events);
            RespectfulRun(Empty(0), events) && |q.jobs| == 1 && Stranded(q.jobs[0])
  {
    hide Run, Apply, RespectfulRun;
    RecoverySteps([Enqueue(0, None, 3, 0), Claim("a", 0), CancelJob(0), Tick(400), Recover(300)]);
  }

  lemma RecoverySteps(events: seq<Event>)
    requires |events| == 5
    requires events[0] == Enqueue(0, None, 3, 0) && events[1] == Claim("a", 0) && events[2] == CancelJob(0)
    requires events[3] == Tick(400) && events[4] == Recover(300)
    ensures var q := Run(Empty(0), events);
            RespectfulRun(Empty(0), events) && |q.jobs| == 1 && Stranded(q.jobs[0])
  {
    hide Run, Apply, RetryOrFail, Claimed, Empty;
    assert events[..5] == events && events[..0] == [];
    RunOfNothing();
    Next(events, 0, Enqueue(0, None, 3, 0));
    Next(events, 1, Claim("a", 0));
    Next(events, 2, CancelJob(0));
    Next(events, 3, Tick(400));
    Next(events, 4, Recover(300));
    FirstClaim();
    RequestExpires();
    NobodyExecutes(events);
  }

  lemma FirstClaim()
    ensures Apply(Apply(Empty(0), Enqueue(0, None, 3, 0)), Claim("a", 0)) == Queue([FIRST_CLAIM], 0, map[])
  {
    assert Choosable([NewJob(0, None, 3, 0, 0)], 0, 0);
  }

  lemma RequestExpires()
    ensures var q := Apply(Apply(Queue([FIRST_CLAIM], 0, map[]), CancelJob(0)), Tick(400));
            && q.executing == map[]
            && var r := Apply(q, Recover(300)); |r.jobs| == 1 && Stranded(r.jobs[0])
  {
  }

  lemma NobodyExecutes(events: seq<Event>)
    requires |events| == 5 && forall i :: 0 <= i < 4 ==> !events[i].Recover?
    requires forall i :: 0 <= i < 5 && events[i].Enqueue? ==> events[i].maxAttempts >= 1
    requires Run(Empty(0), events[..4]).executing == map[]
    ensures RespectfulRun(Empty(0), events)
  {
    hide Run;
  }

  /** No lease expires: the execution fails transiently before its session has seen the request, and strands the job. */
  lemma UnseenRequestCanStrand()
    ensures var events := [Enqueue(0, None, 3, 0), Claim("a", 0), Begin("a", 0), CancelJob(0),
                           Finish("a", TransientError, false)];
            var q := Run(Empty(0), events);
            RespectfulRun(Empty(0), events) && |q.jobs| == 1 && Stranded(q.jobs[0])
  {
    hide Run, Apply, RespectfulRun;
    UnseenSteps([Enqueue(0, None, 3, 0), Claim("a", 0), Begin("a", 0), CancelJob(0), Finish("a", TransientError, false)]);
  }

  lemma UnseenSteps(events: seq<Event>)
    requires |events| == 5
    requires events[0] == Enqueue(0, None, 3, 0) && events[1] == Claim("a", 0) && events[2] == Begin("a", 0)
    requires events[3] == CancelJob(0) && events[4] == Finish("a", TransientError, false)
    ensures var q := Run(Empty(0), events);
            RespectfulRun(Empty(0), events) && |q.jobs| == 1 && Stranded(q.jobs[0])
  {
    hide Run, Apply, RetryOrFail, Claimed, Empty;
    assert events[..5] == events && events[..0] == [];
    RunOfNothing();
    Next(events, 0, Enqueue(0, None, 3, 0));
    Next(events, 1, Claim("a", 0));
    Next(events, 2, Begin("a", 0));
    Next(events, 3, CancelJob(0));
    Next(events, 4, Finish("a", TransientError, false));
    FirstLease();
    RequestUnseen();
  }

  lemma RequestUnseen()
    ensures var q := Apply(Apply(Queue([FIRST_CLAIM], 0, map["a" := 0]), CancelJob(0)), Finish("a", TransientError, false));
            |q.jobs| == 1 && Stranded(q.jobs[0])
  {
  }

  /**
    Finishing does not look at the lease again. When a lease is recovered under a worker that is still executing,
    a second worker can finish the job and the first then overwrites its SUCCEEDED with FAILED.
   */
  lemma ExpiredWorkerOverwrites()
    ensures var events := [Enqueue(0, None, 3, 0), Claim("a", 0), Begin("a", 0), Tick(400), Recover(300), Tick(2),
                           Claim("b", 0), Begin("b", 0), Finish("b", Done, false), Finish("a", PermanentError, false)];
            var before, after := Run(Empty(0), events[..9]), Run(Empty(0), events);
            && !RespectfulRun(Empty(0), events)
            && |before.jobs| == |after.jobs| == 1
            && before.jobs[0].status == Succeeded && after.jobs[0].status == Failed
  {
    hide Run, Apply, RespectfulRun;
    ExpiredWorkerSteps([Enqueue(0, None, 3, 0), Claim("a", 0), Begin("a", 0), Tick(400), Recover(300), Tick(2),
                        Claim("b", 0), Begin("b", 0), Finish("b", Done, false), Finish("a", PermanentError, false)]);
  }

  lemma ExpiredWorkerSteps(events: seq<Event>)
    requires |events| == 10
    requires events[0] == Enqueue(0, None, 3, 0) && events[1] == Claim("a", 0) && events[2] == Begin("a", 0)
    requires events[3] == Tick(400) && events[4] == Recover(300) && events[5] == Tick(2)
    requires events[6] == Claim("b", 0) && events[7] == Begin("b", 0)
    requires events[8] == Finish("b", Done, false) && events[9] == Finish("a", PermanentError, false)
    ensures var before, after := Run(Empty(0), events[..9]), Run(Empty(0), events);
            && !RespectfulRun(Empty(0), events)
            && |before.jobs| == |after.jobs| == 1
            && before.jobs[0].status == Succeeded && after.jobs[0].status == Failed
  {
    hide Run, Apply, Respectful, RespectfulRun, RetryOrFail, Claimed, Finished, Empty;
    assert events[..10] == events && events[..0] == [];
    RunOfNothing();
    Next(events, 0, Enqueue(0, None, 3, 0));
    Next(events, 1, Claim("a", 0));
    Next(events, 2, Begin("a", 0));
    Next(events, 3, Tick(400));
    Next(events, 4, Recover(300));
    Next(events, 5, Tick(2));
    Next(events, 6, Claim("b", 0));
    Next(events, 7, Begin("b", 0));
    Next(events, 8, Finish("b", Done, false));
    Next(events, 9, Finish("a", PermanentError, false));
    FirstLease();
    LeaseExpires();
    assert Run(Empty(0), events[..4]) == Apply(Queue([FIRST_CLAIM], 0, map["a" := 0]), Tick(400));
    SecondLease();
    BothFinish();
    OneBadStep(Empty(0), events, 4);
  }

  lemma OneBadStep(q: Queue, events: seq<Event>, i: nat)
    requires i < |events| && !Respectful(Run(q, events[..i]), events[i])
    ensures !RespectfulRun(q, events)
  {
  }

  lemma RunOfNothing()
    ensures Run(Empty(0), []) == Empty(0)
  {
  }

  lemma Next(events: seq<Event>, n: nat, e: Event)
    requires n < |events| && events[n] == e
    ensures Run(Empty(0), events[..n + 1]) == Apply(Run(Empty(0), events[..n]), e)
  {
    assert events[..n + 1][..n] == events[..n];
    hide Apply;
  }

  const FIRST_CLAIM: Job := Claimed(NewJob(0, None, 3, 0, 0), "a", 0)
  const EXPIRED: Job := RetryOrFail(FIRST_CLAIM, true, 400)
  const SECOND_CLAIM: Job := Claimed(EXPIRED, "b", 402)

  lemma FirstLease()
    ensures Apply(Apply(Apply(Empty(0), Enqueue(0, None, 3, 0)), Claim("a", 0)), Begin("a", 0))
            == Queue([FIRST_CLAIM], 0, map["a" := 0])
  {
    assert Choosable([NewJob(0, None, 3, 0, 0)], 0, 0);
  }

  lemma LeaseExpires()
    ensures var q := Apply(Queue([FIRST_CLAIM], 0, map["a" := 0]), Tick(400));
            && !Respectful(q, Recover(300))
            && Apply(Apply(q, Recover(300)), Tick(2)) == Queue([EXPIRED], 402, map["a" := 0])
  {
    var q := Apply(Queue([FIRST_CLAIM], 0, map["a" := 0]), Tick(400));
    assert "a" in q.executing && Stale(q.jobs[q.executing["a"]], q.now - 300);
  }

  lemma SecondLease()
    ensures Apply(Apply(Queue([EXPIRED], 402, map["a" := 0]), Claim("b", 0)), Begin("b", 0))
            == Queue([SECOND_CLAIM], 402, map["a" := 0, "b" := 0])
  {
    assert Pow2(1) == 2;
    assert Choosable([EXPIRED], 402, 0);
  }

  lemma BothFinish()
    ensures var q := Apply(Queue([SECOND_CLAIM], 402, map["a" := 0, "b" := 0]), Finish("b", Done, false));
            && |q.jobs| == 1 && q.jobs[0].status == Succeeded
            && var r := Apply(q, Finish("a", PermanentError, false)); |r.jobs| == 1 && r.jobs[0].status == Failed
  {
  }
}
