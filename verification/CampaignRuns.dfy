/** At-most-once work: one job per experiment, one completion, one locked test evaluation, and counters that never overstate. */
module CampaignRuns {
  import opened Common
  import Q = JobQueue
  import opened CampaignWork

  // ----- Counting -----

  lemma {:induction false} CountsAtOne(es: seq<Experiment>, e: nat, x: Experiment)
    requires e < |es|
    ensures CompletedCount(es[e := x])
            == CompletedCount(es) - (if es[e].completed then 1 else 0) + if x.completed then 1 else 0
    ensures TestedCount(es[e := x]) == TestedCount(es) - (if es[e].tested then 1 else 0) + if x.tested then 1 else 0
  {
    var n := |es| - 1;
    if e == n {
      assert es[e := x][..n] == es[..n];
    } else {
      assert es[e := x][..n] == es[..n][e := x];
      CountsAtOne(es[..n], e, x);
    }
  }

  lemma {:induction false} CountsBound(es: seq<Experiment>)
    requires forall i :: 0 <= i < |es| ==> Once(es[i])
    ensures TestedCount(es) <= CompletedCount(es) <= |es|
  {
    if es != [] {
      CountsBound(es[..|es| - 1]);
    }
  }

  /** An experiment is tested only after completion, and has been evaluated exactly as often as it is tested: at most once. */
  predicate Once(x: Experiment) {
    (x.tested ==> x.completed) && x.evaluations == if x.tested then 1 else 0
  }

  // ----- The invariant -----

  /** No two jobs are for the same experiment. */
  ghost predicate OneJobEach(c: Campaign) {
    && (forall i, j :: 0 <= i < j < |c.queue.jobs| && c.queue.jobs[i].experiment.Some? ==>
          c.queue.jobs[i].experiment != c.queue.jobs[j].experiment)
    && (forall i :: 0 <= i < |c.queue.jobs| && c.queue.jobs[i].experiment.Some? ==>
          c.queue.jobs[i].experiment.value < |c.experiments|)
  }

  predicate Within(b: Budget, es: seq<Experiment>) {
    0 <= b.experiments <= CompletedCount(es) && 0 <= b.tests <= TestedCount(es)
  }

  /** A worker that saw its experiment unfinished is the only one that can have finished it. */
  ghost predicate ViewsHold(c: Campaign) {
    && c.views.Keys == c.queue.executing.Keys
    && (forall w :: w in c.views ==>
          && Within(c.views[w].budget, c.experiments)
          && (Executing(c, w).Some? && !c.views[w].completed ==>
                Executing(c, w).value < |c.experiments| && !c.experiments[Executing(c, w).value].completed))
  }

  ghost predicate Inv(c: Campaign) {
    && Q.Inv(c.queue) && c.maxAttempts >= 1
    && |c.experiments| <= c.maxExperiments
    && (forall i :: 0 <= i < |c.experiments| ==> Once(c.experiments[i]))
    && Within(c.budget, c.experiments)
    && OneJobEach(c) && ViewsHold(c)
  }

  /** Steps on the queue that touch neither the experiments nor which job is for which of them. */
  lemma SameExperiments(q: Q.Queue, e: Q.Event)
    requires !e.Enqueue?
    ensures |Q.Apply(q, e).jobs| == |q.jobs|
    ensures forall i :: 0 <= i < |q.jobs| ==> Q.Apply(q, e).jobs[i].experiment == q.jobs[i].experiment
    ensures Q.Apply(q, e).executing.Keys <= q.executing.Keys + if e.Begin? then {e.worker} else {}
    ensures forall w :: w in Q.Apply(q, e).executing && w in q.executing ==> Q.Apply(q, e).executing[w] == q.executing[w]
    ensures !e.Finish? && !e.Crash? ==> q.executing.Keys <= Q.Apply(q, e).executing.Keys
    ensures (e.Finish? && e.worker in q.executing && q.executing[e.worker] < |q.jobs|) || e.Crash? ==>
              Q.Apply(q, e).executing == q.executing - {e.worker}
  {
    hide Q.Backoff, Q.Before;
  }

  lemma OnQueueKeepsInv(c: Campaign, e: Q.Event)
    requires Inv(c) && Q.Respectful(c.queue, e)
    requires !e.Enqueue? && !e.Begin? && !e.Finish? && !e.Crash?
    ensures Inv(OnQueue(c, e))
  {
    SameExperiments(c.queue, e);
    Q.StepKeepsInv(c.queue, e);
    hide Q.Apply, Q.Inv, Q.Respectful, Within, Once;
  }

  lemma BeginKeepsInv(c: Campaign, worker: string, j: nat)
    requires Inv(c)
    ensures Inv(Apply(c, Begin(worker, j)))
  {
    hide Q.Inv, Within, Once, CompletedCount, TestedCount;
    SameExperiments(c.queue, Q.Begin(worker, j));
    Q.StepKeepsInv(c.queue, Q.Begin(worker, j));
  }

  lemma LeaveKeepsInv(c: Campaign, e: Q.Event)
    requires Inv(c) && (e.Crash? || (e.Finish? && e.worker in c.queue.executing))
    ensures Inv(OnQueue(c, e).(views := c.views - {e.worker}))
  {
    hide Q.Apply, Q.JobOk, Within, Once;
    SameExperiments(c.queue, e);
    Q.StepKeepsInv(c.queue, e);
  }

  // ----- New jobs -----

  lemma CreateJobKeepsInv(c: Campaign, e: nat)
    requires Inv(c) && e < |c.experiments|
    ensures Inv(CreateJob(c, e)) && CreateJob(c, e).experiments == c.experiments
  {
    if !HasJob(c.queue.jobs, e) {
      var event := Q.Enqueue(0, Some(e), c.maxAttempts, 0);
      Q.StepKeepsInv(c.queue, event);
      EnqueueAppends(c.queue, event);
      QueueLeases(c.queue);
      hide Q.Apply, Q.Inv, Within, Once;
    }
  }

  lemma EnqueueAppends(q: Q.Queue, e: Q.Event)
    requires e.Enqueue?
    ensures Q.Apply(q, e) == q.(jobs := Q.Apply(q, e).jobs)
    ensures |Q.Apply(q, e).jobs| == |q.jobs| + 1 && Q.Apply(q, e).jobs[..|q.jobs|] == q.jobs
    ensures Q.Apply(q, e).jobs[|q.jobs|].experiment == e.experiment
  {
  }

  lemma QueueLeases(q: Q.Queue)
    requires Q.Inv(q)
    ensures forall w :: w in q.executing ==> q.executing[w] < |q.jobs|
  {
  }

  lemma {:induction false} CreateJobsKeepsInv(c: Campaign, planned: seq<nat>)
    requires Inv(c) && forall i :: 0 <= i < |planned| ==> planned[i] < |c.experiments|
    ensures Inv(CreateJobs(c, planned))
  {
    hide Inv, CreateJob;
    if planned != [] {
      CreateJobsKeepsInv(c, planned[..|planned| - 1]);
      CreateJobKeepsInv(CreateJobs(c, planned[..|planned| - 1]), planned[|planned| - 1]);
    }
  }

  // ----- Finalization -----

  /** Testing leaves completion alone, tests only what is asked, and never tests anything twice. */
  lemma {:induction false} EvaluateOnce(es: seq<Experiment>, top: seq<nat>)
    requires forall i :: 0 <= i < |top| ==> top[i] < |es| && es[top[i]].completed
    requires forall i :: 0 <= i < |es| ==> Once(es[i])
    ensures var r := Evaluate(es, top);
            && (forall i :: 0 <= i < |es| ==> Once(r[i]) && r[i].completed == es[i].completed && (es[i].tested ==> r[i] == es[i]))
            && CompletedCount(r) == CompletedCount(es) && TestedCount(r) >= TestedCount(es)
  {
    if top != [] {
      EvaluateOnce(es, top[..|top| - 1]);
      var before, e := Evaluate(es, top[..|top| - 1]), top[|top| - 1];
      CountsAtOne(before, e, before[e].(tested := true, evaluations := before[e].evaluations + 1));
      hide CompletedCount, TestedCount;
    }
  }

  lemma FinalizeKeepsInv(c: Campaign, ranking: seq<nat>)
    requires Inv(c) && IsRanking(c.experiments, ranking)
    ensures Inv(Finalize(c, ranking))
  {
    hide Evaluate, Q.Inv, CompletedCount, TestedCount, Once;
    EvaluateOnce(c.experiments, Top(ranking));
  }

  lemma RefreshKeepsInv(c: Campaign, ranking: seq<nat>)
    requires Inv(c) && IsRanking(c.experiments, ranking)
    ensures Inv(Refresh(c, ranking))
  {
    hide Q.Inv, CompletedCount, TestedCount, Once, Finalize;
    FinalizeKeepsInv(c, ranking);
  }

  // ----- Executing -----

  /** Two workers never execute for the same experiment. */
  lemma OneExecutor(c: Campaign, v: string, w: string)
    requires Inv(c) && v in c.queue.executing && w in c.queue.executing && v != w && Executing(c, v).Some?
    ensures Executing(c, v) != Executing(c, w)
  {
  }

  /** The handler's writes keep everything, apart from the worker's own view, which ends with it. */
  lemma WorkKeepsInv(c: Campaign, worker: string, h: Handler)
    requires Inv(c) && worker in c.views
    ensures var d := Work(c, worker, h); Inv(d.(views := d.views[worker := d.views[worker].(completed := true)]))
  {
    hide Q.JobOk, CompletedCount, TestedCount;
    var view, e := c.views[worker], Executing(c, worker);
    var d := Work(c, worker, h);
    if !(view.completed || h.Early? || e == None || e.value >= |c.experiments|) {
      CountsAtOne(c.experiments, e.value, c.experiments[e.value].(completed := true, tested := false));
      forall w | w in c.views && w != worker
        ensures Executing(c, w) != e
      {
        OneExecutor(c, worker, w);
      }
    }
  }

  lemma WorkLeavesQueue(c: Campaign, worker: string, h: Handler)
    requires worker in c.views
    ensures Work(c, worker, h).queue == c.queue && Work(c, worker, h).views == c.views
  {
  }

  lemma EntryDropped(views: map<string, View>, worker: string, view: View)
    ensures views[worker := view] - {worker} == views - {worker}
  {
  }

  /** The worker's commit: its writes, its job's end, and its view gone. */
  function Committed(c: Campaign, worker: string, h: Handler, sawCancel: bool): Campaign
    requires worker in c.views
  {
    OnQueue(Work(c, worker, h), Q.Finish(worker, OutcomeOf(h), sawCancel)).(views := c.views - {worker})
  }

  lemma CommittedKeepsInv(c: Campaign, worker: string, h: Handler, sawCancel: bool)
    requires Inv(c) && worker in c.queue.executing && worker in c.views
    ensures Inv(Committed(c, worker, h, sawCancel))
  {
    hide Inv, Q.Apply, Work;
    WorkKeepsInv(c, worker, h);
    WorkLeavesQueue(c, worker, h);
    var worked := Work(c, worker, h);
    var view := worked.views[worker].(completed := true);
    var eased := worked.(views := worked.views[worker := view]);
    EntryDropped(c.views, worker, view);
    LeaveKeepsInv(eased, Q.Finish(worker, OutcomeOf(h), sawCancel));
  }

  lemma FinishKeepsInv(c: Campaign, worker: string, h: Handler, sawCancel: bool, ranking: seq<nat>)
    requires Inv(c)
    ensures Inv(Apply(c, Finish(worker, h, sawCancel, ranking)))
  {
    hide Inv, OnQueue, Work, Refresh, IsRanking;
    if worker in c.queue.executing && worker in c.views {
      CommittedKeepsInv(c, worker, h, sawCancel);
      var done := Committed(c, worker, h, sawCancel);
      if IsRanking(done.experiments, ranking) {
        RefreshKeepsInv(done, ranking);
      }
    }
  }

  lemma StatusIsFree(c: Campaign, status: Status)
    requires Inv(c)
    ensures Inv(c.(status := status))
  {
    hide Q.Inv, Once, CompletedCount, TestedCount;
  }

  lemma StepKeepsInv(c: Campaign, ev: Event)
    requires Inv(c) && Respectful(c, ev)
    ensures Inv(Apply(c, ev))
  {
    hide Inv, OnQueue, Refresh, Finalize, CreateJobs, Work, IsRanking;
    match ev
    case RunCampaign(batch) =>
      CreateJobsKeepsInv(c, FirstOf(Pending(c.experiments), batch));
      StatusIsFree(CreateJobs(c, FirstOf(Pending(c.experiments), batch)), Apply(c, ev).status);
    case RecoverInterrupted(ranking) =>
      CreateJobsKeepsInv(c, Pending(c.experiments));
      if IsRanking(c.experiments, ranking) { RefreshKeepsInv(CreateJobs(c, Pending(c.experiments)), ranking); }
    case Claim(worker, j) => OnQueueKeepsInv(c, Q.Claim(worker, j));
    case Heartbeat(worker, j) => OnQueueKeepsInv(c, Q.Heartbeat(worker, j));
    case Begin(worker, j) => BeginKeepsInv(c, worker, j);
    case Reload(worker) => ReloadKeepsInv(c, worker);
    case Finish(worker, h, sawCancel, ranking) => FinishKeepsInv(c, worker, h, sawCancel, ranking);
    case Crash(worker) => LeaveKeepsInv(c, Q.Crash(worker));
    case RecoverStale(staleAfter) => OnQueueKeepsInv(c, Q.Recover(staleAfter));
    case CancelJob(j) => OnQueueKeepsInv(c, Q.CancelJob(j));
    case CancelAll =>
      OnQueueKeepsInv(c, Q.CancelCampaign(0));
      StatusIsFree(OnQueue(c, Q.CancelCampaign(0)), CancelledByUser);
    case Report(ranking) => if IsRanking(c.experiments, ranking) { FinalizeKeepsInv(c, ranking); }
    case Tick(seconds) => OnQueueKeepsInv(c, Q.Tick(seconds));
  }

  lemma ReloadKeepsInv(c: Campaign, worker: string)
    requires Inv(c)
    ensures Inv(Apply(c, Reload(worker)))
  {
    hide Q.Inv, Once, Within;
  }

  lemma PlannedIsInv(count: nat, maxExperiments: nat, maxAttempts: int, now: int)
    requires count <= maxExperiments && maxAttempts >= 1
    ensures Inv(Planned(count, maxExperiments, maxAttempts, now))
  {
    var c := Planned(count, maxExperiments, maxAttempts, now);
    Q.EmptyIsInv(now);
    NothingCounted(c.experiments);
    hide CompletedCount, TestedCount;
  }

  lemma {:induction false} NothingCounted(es: seq<Experiment>)
    requires forall i :: 0 <= i < |es| ==> es[i] == Experiment(false, false, 0)
    ensures CompletedCount(es) == 0 && TestedCount(es) == 0
  {
    if es != [] {
      NothingCounted(es[..|es| - 1]);
    }
  }

  lemma {:induction false} RunKeepsInv(c: Campaign, events: seq<Event>)
    requires Inv(c) && RespectfulRun(c, events)
    ensures Inv(Run(c, events))
  {
    hide Inv, Apply, Respectful;
    if events != [] {
      var front := events[..|events| - 1];
      assert forall i :: 0 <= i < |front| ==> front[..i] == events[..i] && front[i] == events[i];
      RunKeepsInv(c, front);
      StepKeepsInv(Run(c, front), events[|events| - 1]);
    }
  }

  /**
    Over every lease-respecting mix of runs, recoveries, retries, crashes, cancellations and finalizations: at most one
    job per experiment; experiments counted <= completed <= planned <= the budget; and no experiment is evaluated on
    the locked test split twice, with the test counter never above the number tested.
   */
  lemma {:induction false} AtMostOnce(count: nat, maxExperiments: nat, maxAttempts: int, now: int, events: seq<Event>)
    requires count <= maxExperiments && maxAttempts >= 1
    requires RespectfulRun(Planned(count, maxExperiments, maxAttempts, now), events)
    ensures var c := Run(Planned(count, maxExperiments, maxAttempts, now), events);
            && (forall i, j :: 0 <= i < j < |c.queue.jobs| && c.queue.jobs[i].experiment.Some? ==>
                  c.queue.jobs[i].experiment != c.queue.jobs[j].experiment)
            && c.budget.experiments <= CompletedCount(c.experiments) <= |c.experiments| <= c.maxExperiments
            && (forall i :: 0 <= i < |c.experiments| ==> c.experiments[i].evaluations <= 1)
            && c.budget.tests <= TestedCount(c.experiments) <= CompletedCount(c.experiments)
  {
    PlannedIsInv(count, maxExperiments, maxAttempts, now);
    RunKeepsInv(Planned(count, maxExperiments, maxAttempts, now), events);
    hide Run, Planned, Q.Inv, CompletedCount, TestedCount;
    CountsBound(Run(Planned(count, maxExperiments, maxAttempts, now), events).experiments);
  }

  // ----- When the counters are exact -----

  /** The counters say exactly what was tested and, when `completions` is asked for, what was completed. */
  predicate Exact(c: Campaign, completions: bool) {
    c.budget.tests == TestedCount(c.experiments) && (completions ==> c.budget.experiments == CompletedCount(c.experiments))
  }

  /** No other session has written the budget since a finishing worker read it. */
  predicate Current(c: Campaign, ev: Event) {
    ev.Finish? && ev.worker in c.views ==> c.views[ev.worker].budget == c.budget
  }

  /** The handler did not fail between marking the experiment completed and counting it. */
  predicate Counted(ev: Event) { ev.Finish? && ev.handler.Late? ==> ev.handler.counted }

  lemma FinalizeKeepsExact(c: Campaign, ranking: seq<nat>, completions: bool)
    requires Inv(c) && IsRanking(c.experiments, ranking) && Exact(c, completions)
    ensures Exact(Finalize(c, ranking), completions) && Exact(Refresh(c, ranking), completions)
  {
    hide Evaluate, Q.Inv, CompletedCount, TestedCount, Once;
    EvaluateOnce(c.experiments, Top(ranking));
  }

  lemma WorkKeepsExact(c: Campaign, worker: string, h: Handler, completions: bool)
    requires Inv(c) && worker in c.views && Exact(c, completions) && c.views[worker].budget == c.budget
    requires completions && h.Late? ==> h.counted
    ensures Exact(Work(c, worker, h), completions)
  {
    hide Q.Inv, CompletedCount, TestedCount;
    var view, e := c.views[worker], Executing(c, worker);
    if !(view.completed || h.Early? || e == None || e.value >= |c.experiments|) {
      CountsAtOne(c.experiments, e.value, c.experiments[e.value].(completed := true, tested := false));
    }
  }

  /** The finishing worker completes its experiment. */
  predicate Completes(c: Campaign, worker: string, h: Handler)
    requires worker in c.views
  {
    !c.views[worker].completed && !h.Early? && Executing(c, worker).Some?
    && Executing(c, worker).value < |c.experiments|
  }

  /**
    From exact counters, exactly when a finish leaves them exact: each when the session had read the counter last
    written, and the completions only when its handler counts the experiment it completes.
   */
  lemma FinishIsExactWhen(c: Campaign, worker: string, h: Handler, sawCancel: bool, ranking: seq<nat>)
    requires Inv(c) && Exact(c, true) && worker in c.queue.executing && worker in c.views
    requires IsRanking(Committed(c, worker, h, sawCancel).experiments, ranking)
    ensures var d, view := Apply(c, Finish(worker, h, sawCancel, ranking)), c.views[worker].budget;
            && (d.budget.tests == TestedCount(d.experiments) <==> view.tests == c.budget.tests)
            && (d.budget.experiments == CompletedCount(d.experiments) <==>
                  view.experiments == c.budget.experiments && !(Completes(c, worker, h) && h.Late? && !h.counted))
  {
    hide Inv, Apply, Work, Refresh, Executing, CompletedCount, TestedCount, IsRanking, Completes;
    ViewsLag(c, worker);
    FinishCounts(c, worker, h, sawCancel, ranking);
  }

  /** What one finish does to the distance between each counter and what it counts. */
  lemma FinishCounts(c: Campaign, worker: string, h: Handler, sawCancel: bool, ranking: seq<nat>)
    requires Inv(c) && worker in c.queue.executing && worker in c.views
    requires IsRanking(Committed(c, worker, h, sawCancel).experiments, ranking)
    ensures var d, view := Apply(c, Finish(worker, h, sawCancel, ranking)), c.views[worker].budget;
            && d.budget.tests - TestedCount(d.experiments) == view.tests - TestedCount(c.experiments)
            && d.budget.experiments - CompletedCount(d.experiments)
               == view.experiments - CompletedCount(c.experiments)
                  - if Completes(c, worker, h) && h.Late? && !h.counted then 1 else 0
  {
    hide Inv, Work, Refresh, Executing, CompletedCount, TestedCount, Q.Apply, IsRanking;
    CommittedKeepsInv(c, worker, h, sawCancel);
    var done := Committed(c, worker, h, sawCancel);
    WorkCounts(c, worker, h);
    RefreshCounts(done, ranking);
  }

  /** No session has read more than was completed. */
  lemma ViewsLag(c: Campaign, worker: string)
    requires Inv(c) && Exact(c, true) && worker in c.views
    ensures c.views[worker].budget.experiments <= c.budget.experiments
  {
    hide Q.Inv, CompletedCount, TestedCount;
  }

  lemma WorkCounts(c: Campaign, worker: string, h: Handler)
    requires Inv(c) && worker in c.views
    ensures var d, view := Work(c, worker, h), c.views[worker].budget;
            var completes := Completes(c, worker, h);
            && TestedCount(d.experiments) == TestedCount(c.experiments)
            && CompletedCount(d.experiments) == CompletedCount(c.experiments) + (if completes then 1 else 0)
            && d.budget == Budget(view.experiments + (if completes && (h.Finishes? || h.counted) then 1 else 0), view.tests)
  {
    hide Q.Inv, CompletedCount, TestedCount;
    if Completes(c, worker, h) {
      var e := Executing(c, worker).value;
      CountsAtOne(c.experiments, e, c.experiments[e].(completed := true, tested := false));
    }
  }

  /** A refresh moves the test counter as it moves the tested experiments, and completes none. */
  lemma RefreshCounts(c: Campaign, ranking: seq<nat>)
    requires Inv(c) && IsRanking(c.experiments, ranking)
    ensures var d := Refresh(c, ranking);
            && d.budget.tests - TestedCount(d.experiments) == c.budget.tests - TestedCount(c.experiments)
            && d.budget.experiments == c.budget.experiments
            && CompletedCount(d.experiments) == CompletedCount(c.experiments)
  {
    hide Evaluate, Q.Inv, CompletedCount, TestedCount, Once;
    EvaluateOnce(c.experiments, Top(ranking));
  }

  lemma StepKeepsExact(c: Campaign, ev: Event, completions: bool)
    requires Inv(c) && Respectful(c, ev) && Exact(c, completions) && Current(c, ev) && (completions ==> Counted(ev))
    ensures Exact(Apply(c, ev), completions)
  {
    hide Inv, Q.Apply, Refresh, Finalize, CreateJobs, Work, IsRanking, CompletedCount, TestedCount;
    match ev
    case RecoverInterrupted(ranking) =>
      CreateJobsKeepsInv(c, Pending(c.experiments));
      if IsRanking(c.experiments, ranking) {
        FinalizeKeepsExact(CreateJobs(c, Pending(c.experiments)), ranking, completions);
      }
    case Finish(worker, h, sawCancel, ranking) =>
      if worker in c.queue.executing && worker in c.views {
        WorkKeepsExact(c, worker, h, completions);
        CommittedKeepsInv(c, worker, h, sawCancel);
        var done := Committed(c, worker, h, sawCancel);
        if IsRanking(done.experiments, ranking) { FinalizeKeepsExact(done, ranking, completions); }
      }
    case Report(ranking) => if IsRanking(c.experiments, ranking) { FinalizeKeepsExact(c, ranking, completions); }
    case _ =>
  }

  /**
    When every finishing worker has read the budget last written, the test counter is exactly the number of tested
    experiments; and when no handler fails between completing and counting, completions are counted exactly too.
   */
  lemma {:induction false} CountersExact(count: nat, maxExperiments: nat, maxAttempts: int, now: int, events: seq<Event>)
    requires count <= maxExperiments && maxAttempts >= 1
    requires RespectfulRun(Planned(count, maxExperiments, maxAttempts, now), events)
    requires forall i :: 0 <= i < |events| ==>
               Current(Run(Planned(count, maxExperiments, maxAttempts, now), events[..i]), events[i])
    ensures var c := Run(Planned(count, maxExperiments, maxAttempts, now), events);
            && c.budget.tests == TestedCount(c.experiments)
            && ((forall i :: 0 <= i < |events| ==> Counted(events[i])) ==>
                  c.budget.experiments == CompletedCount(c.experiments))
  {
    ExactRun(Planned(count, maxExperiments, maxAttempts, now), events, forall i :: 0 <= i < |events| ==> Counted(events[i])) by {
      PlannedIsInv(count, maxExperiments, maxAttempts, now);
      NothingCounted(Planned(count, maxExperiments, maxAttempts, now).experiments);
    }
  }

  lemma {:induction false} ExactRun(c: Campaign, events: seq<Event>, completions: bool)
    requires Inv(c) && Exact(c, completions) && RespectfulRun(c, events)
    requires forall i :: 0 <= i < |events| ==> Current(Run(c, events[..i]), events[i])
    requires completions ==> forall i :: 0 <= i < |events| ==> Counted(events[i])
    ensures Exact(Run(c, events), completions)
  {
    hide Inv, Apply, Respectful, Exact, Current, Counted;
    if events != [] {
      var front := events[..|events| - 1];
      assert forall i :: 0 <= i < |front| ==> front[..i] == events[..i] && front[i] == events[i];
      ExactRun(c, front, completions);
      RunKeepsInv(c, front);
      StepKeepsExact(Run(c, front), events[|events| - 1], completions);
    }
  }

  /**
    Cancellation of a campaign is not absorbing: the refresh after any later finish keeps it exactly when nothing is
    open, nothing failed and nothing was completed, or the campaign has no jobs.
   */
  lemma RefreshForgetsCancellation(c: Campaign, ranking: seq<nat>)
    requires c.status == CancelledByUser && IsRanking(c.experiments, ranking)
    ensures Refresh(c, ranking).status == CancelledByUser <==>
            && !AnyOpen(c.queue.jobs) && !AnyFailed(c.queue.jobs)
            && (c.queue.jobs == [] || forall i :: 0 <= i < |c.experiments| ==> !c.experiments[i].completed)
  {
    hide Evaluate;
    if ranking != [] {
      assert c.experiments[ranking[0]].completed;
    }
  }
}
