/** What each campaign call leaves behind, experiment by experiment and job by job. */
module CampaignLaws {
  import opened Common
  import Q = JobQueue
  import L = JobLeases
  import opened CampaignWork

  // ----- Planning -----

  /** The plan counts through the variants of the first symbol, then of the second, and so on. */
  lemma {:induction false} ProductAt(symbols: seq<string>, variants: nat, i: nat, v: nat)
    requires i < |symbols| && v < variants
    ensures |Product(symbols, variants)| == |symbols| * variants
    ensures 0 <= i * variants + v < |Product(symbols, variants)|
    ensures Product(symbols, variants)[i * variants + v] == (symbols[i], v)
  {
    var n := |symbols| - 1;
    ProductSize(symbols, variants);
    ProductSize(symbols[..n], variants);
    RowFits(i, n, v, variants);
    if i < n {
      ProductAt(symbols[..n], variants, i, v);
    }
  }

  lemma {:induction false} ProductSize(symbols: seq<string>, variants: nat)
    ensures |Product(symbols, variants)| == |symbols| * variants
  {
    if symbols != [] {
      ProductSize(symbols[..|symbols| - 1], variants);
      assert |symbols| * variants == (|symbols| - 1) * variants + variants;
    }
  }

  lemma RowFits(i: nat, n: nat, v: nat, variants: nat)
    requires i <= n && v < variants
    ensures 0 <= i * variants + v < (n + 1) * variants
    ensures i < n ==> i * variants + v < n * variants
  {
    assert (n - i) * variants >= 0;
    assert (n + 1) * variants == i * variants + (n - i) * variants + variants;
    if i < n {
      assert (n - i - 1) * variants >= 0;
      assert n * variants == i * variants + (n - i - 1) * variants + variants;
    }
  }

  // ----- Jobs -----

  /** The pending experiments are the uncompleted ones, in order. */
  lemma {:induction false} PendingAre(es: seq<Experiment>)
    ensures forall e :: e in Pending(es) <==> 0 <= e < |es| && !es[e].completed
    ensures forall i, j :: 0 <= i < j < |Pending(es)| ==> Pending(es)[i] < Pending(es)[j]
  {
    if es != [] {
      PendingAre(es[..|es| - 1]);
    }
  }

  /** A job newly queued for one of these experiments. */
  ghost predicate QueuedFor(c: Campaign, job: Q.Job, planned: seq<nat>) {
    && job.experiment.Some? && job.experiment.value in planned && !HasJob(c.queue.jobs, job.experiment.value)
    && job.status == Q.Queued && job.attempts == 0 && job.maxAttempts == c.maxAttempts && job.campaign == 0
    && job.createdAt == job.availableAt == c.queue.now
  }

  /**
    Creating jobs leaves the existing ones, adds a queued one for each given experiment that had none, in the order
    given, and no other; and the clock, the executions and the rest of the campaign stay.
   */
  lemma {:induction false} JobsAreCreated(c: Campaign, planned: seq<nat>)
    ensures var d, n := CreateJobs(c, planned), |c.queue.jobs|;
            && d == c.(queue := Q.Queue(d.queue.jobs, c.queue.now, c.queue.executing))
            && n <= |d.queue.jobs| && d.queue.jobs[..n] == c.queue.jobs
            && (forall e :: HasJob(d.queue.jobs, e) <==> HasJob(c.queue.jobs, e) || e in planned)
            && (forall i :: n <= i < |d.queue.jobs| ==> QueuedFor(c, d.queue.jobs[i], planned))
            && (forall i, j :: n <= i < j < |d.queue.jobs| ==>
                  d.queue.jobs[i].experiment != d.queue.jobs[j].experiment)
            && ((forall i, j :: 0 <= i < j < |planned| ==> planned[i] < planned[j]) ==>
                  forall i, j :: n <= i < j < |d.queue.jobs| ==>
                    d.queue.jobs[i].experiment.value < d.queue.jobs[j].experiment.value)
  {
    if planned != [] {
      var front, e := planned[..|planned| - 1], planned[|planned| - 1];
      JobsAreCreated(c, front);
      var before := CreateJobs(c, front);
      assert forall x :: x in planned <==> x in front || x == e;
      OneJobIsCreated(before, e);
      if !HasJob(before.queue.jobs, e) {
        AddedIsQueued(c, before, front, e);
      }
      hide CreateJob, HasJob;
    }
  }

  lemma OneJobIsCreated(c: Campaign, e: nat)
    ensures var d := CreateJob(c, e);
            && (HasJob(c.queue.jobs, e) ==> d == c)
            && (!HasJob(c.queue.jobs, e) ==>
                  && d == c.(queue := Q.Queue(d.queue.jobs, c.queue.now, c.queue.executing))
                  && |d.queue.jobs| == |c.queue.jobs| + 1 && d.queue.jobs[..|c.queue.jobs|] == c.queue.jobs
                  && d.queue.jobs[|c.queue.jobs|] == Q.NewJob(0, Some(e), c.maxAttempts, 0, c.queue.now))
            && forall x :: HasJob(d.queue.jobs, x) <==> HasJob(c.queue.jobs, x) || x == e
  {
    var d := CreateJob(c, e);
    if !HasJob(c.queue.jobs, e) {
      var n := |c.queue.jobs|;
      forall x
        ensures HasJob(d.queue.jobs, x) <==> HasJob(c.queue.jobs, x) || x == e
      {
        if HasJob(c.queue.jobs, x) {
          var i :| 0 <= i < n && c.queue.jobs[i].experiment == Some(x);
          assert d.queue.jobs[i].experiment == Some(x);
        }
        assert d.queue.jobs[n].experiment == Some(e);
      }
    }
  }

  lemma AddedIsQueued(c: Campaign, before: Campaign, front: seq<nat>, e: nat)
    requires before.maxAttempts == c.maxAttempts && before.queue.now == c.queue.now
    requires |c.queue.jobs| <= |before.queue.jobs| && before.queue.jobs[..|c.queue.jobs|] == c.queue.jobs
    requires !HasJob(before.queue.jobs, e)
    requires forall i :: |c.queue.jobs| <= i < |before.queue.jobs| ==> QueuedFor(c, before.queue.jobs[i], front)
    ensures QueuedFor(c, Q.NewJob(0, Some(e), c.maxAttempts, 0, c.queue.now), front + [e])
    ensures forall i :: |c.queue.jobs| <= i < |before.queue.jobs| ==> QueuedFor(c, before.queue.jobs[i], front + [e])
    ensures forall i :: 0 <= i < |before.queue.jobs| ==> before.queue.jobs[i].experiment != Some(e)
  {
    assert forall i :: 0 <= i < |c.queue.jobs| ==> c.queue.jobs[i] == before.queue.jobs[..|c.queue.jobs|][i];
  }

  /**
    Starting a campaign queues the first pending experiments, as many as the batch asks for, that have no job yet; it is
    queued when that added a job, keeps its status otherwise, and does nothing once cancelled.
   */
  lemma StartQueues(c: Campaign, batch: Option<nat>)
    ensures var d, n := Apply(c, RunCampaign(batch)), |c.queue.jobs|;
            && (c.status == CancelledByUser ==> d == c)
            && (c.status != CancelledByUser ==>
                  var pending := Pending(c.experiments);
                  var size := if batch.Some? && batch.value < |pending| then batch.value else |pending|;
                  && n <= |d.queue.jobs| && d.queue.jobs[..n] == c.queue.jobs
                  && (forall e :: HasJob(d.queue.jobs, e) <==> HasJob(c.queue.jobs, e) || e in pending[..size])
                  && d.status == (if |d.queue.jobs| == n then c.status else QueuedUp)
                  && d.experiments == c.experiments && d.budget == c.budget && d.views == c.views)
  {
    hide CreateJobs, Pending;
    var pending := Pending(c.experiments);
    JobsAreCreated(c, FirstOf(pending, batch));
    assert pending[..|pending|] == pending;
  }

  // ----- Finalization -----

  /** Testing touches exactly the given experiments that were not tested, once each. */
  lemma {:induction false} TestsExactly(es: seq<Experiment>, top: seq<nat>, e: nat)
    requires (forall i :: 0 <= i < |top| ==> top[i] < |es|) && e < |es|
    ensures Evaluate(es, top)[e]
            == if e in top && !es[e].tested
               then Experiment(es[e].completed, true, es[e].evaluations + 1) else es[e]
  {
    if top != [] {
      TestsExactly(es, top[..|top| - 1], e);
    }
  }

  /** How many of the given experiments a list of different ones newly tests. */
  function Untested(es: seq<Experiment>, top: seq<nat>): nat
    requires forall i :: 0 <= i < |top| ==> top[i] < |es|
  {
    if top == [] then 0 else Untested(es, top[..|top| - 1]) + if es[top[|top| - 1]].tested then 0 else 1
  }

  lemma {:induction false} TestsAreCounted(es: seq<Experiment>, top: seq<nat>)
    requires forall i :: 0 <= i < |top| ==> top[i] < |es|
    requires forall i, j :: 0 <= i < j < |top| ==> top[i] != top[j]
    ensures TestedCount(Evaluate(es, top)) == TestedCount(es) + Untested(es, top)
  {
    if top != [] {
      var front, e := top[..|top| - 1], top[|top| - 1];
      TestsAreCounted(es, front);
      TestsExactly(es, front, e);
      assert e !in front;
      if !es[e].tested { TestedAtOne(Evaluate(es, front), e); }
    }
  }

  lemma {:induction false} TestedAtOne(es: seq<Experiment>, e: nat)
    requires e < |es| && !es[e].tested
    ensures TestedCount(es[e := Experiment(es[e].completed, true, es[e].evaluations + 1)]) == TestedCount(es) + 1
  {
    var n, x := |es| - 1, Experiment(es[e].completed, true, es[e].evaluations + 1);
    if e == n {
      assert es[e := x][..n] == es[..n];
    } else {
      assert es[e := x][..n] == es[..n][e := x];
      TestedAtOne(es[..n], e);
    }
  }

  /** One of the three best. */
  predicate Leading(ranking: seq<nat>, e: nat) {
    || (|ranking| > 0 && ranking[0] == e) || (|ranking| > 1 && ranking[1] == e) || (|ranking| > 2 && ranking[2] == e)
  }

  lemma TopIsLeading(ranking: seq<nat>, e: nat)
    ensures e in Top(ranking) <==> Leading(ranking, e)
  {
    var top := Top(ranking);
    if e in top {
      var i :| 0 <= i < |top| && top[i] == e;
      assert ranking[i] == e;
    }
    if |ranking| > 0 { assert top[0] == ranking[0]; }
    if |ranking| > 1 { assert top[1] == ranking[1]; }
    if |ranking| > 2 { assert top[2] == ranking[2]; }
  }

  /**
    Finalizing tests the three best that were not tested and no other, adds their number to the counter, and completes
    the campaign when anything is ranked.
   */
  lemma FinalizeTests(c: Campaign, ranking: seq<nat>)
    requires IsRanking(c.experiments, ranking)
    ensures var d := Finalize(c, ranking);
            && |d.experiments| == |c.experiments|
            && (forall e :: 0 <= e < |c.experiments| ==>
                  d.experiments[e] == if Leading(ranking, e) && !c.experiments[e].tested
                                      then Experiment(c.experiments[e].completed, true, c.experiments[e].evaluations + 1)
                                      else c.experiments[e])
            && d.budget.experiments == c.budget.experiments
            && d.budget.tests == c.budget.tests + Untested(c.experiments, Top(ranking))
            && d.status == (if exists e :: 0 <= e < |c.experiments| && c.experiments[e].completed
                            then Complete else c.status)
            && d.queue == c.queue && d.views == c.views
  {
    hide Evaluate, TestedCount, Untested, Leading, Top;
    TopIsShort(ranking);
    TestsAreCounted(c.experiments, Top(ranking));
    forall e | 0 <= e < |c.experiments|
      ensures Finalize(c, ranking).experiments[e]
              == if Leading(ranking, e) && !c.experiments[e].tested
                 then Experiment(c.experiments[e].completed, true, c.experiments[e].evaluations + 1) else c.experiments[e]
    {
      TestsExactly(c.experiments, Top(ranking), e);
      TopIsLeading(ranking, e);
    }
    if ranking != [] {
      assert c.experiments[ranking[0]].completed;
    }
  }

  lemma TopIsShort(ranking: seq<nat>)
    ensures Top(ranking) <= ranking && |Top(ranking)| <= 3
  {
  }

  // ----- Refreshing -----

  /** Someone waits for a job or works on it. */
  ghost predicate StillOpen(c: Campaign) {
    exists i :: 0 <= i < |c.queue.jobs|
                && c.queue.jobs[i].status != Q.Succeeded && c.queue.jobs[i].status != Q.Failed
                && c.queue.jobs[i].status != Q.Cancelled
  }

  ghost predicate SomeFailed(c: Campaign) {
    exists i :: 0 <= i < |c.queue.jobs| && c.queue.jobs[i].status == Q.Failed
  }

  /**
    A refresh runs a campaign while a job is open, whatever failed; fails it when one failed and none is open; and
    finalizes it when all its jobs ended without failure. One without jobs is left alone.
   */
  lemma RefreshDecides(c: Campaign, ranking: seq<nat>)
    requires IsRanking(c.experiments, ranking)
    ensures var d := Refresh(c, ranking);
            && (StillOpen(c) ==> d == c.(status := Active))
            && (!StillOpen(c) && SomeFailed(c) ==> d == c.(status := Broken))
            && (!StillOpen(c) && !SomeFailed(c) && c.queue.jobs == [] ==> d == c)
            && (!StillOpen(c) && !SomeFailed(c) && c.queue.jobs != [] ==> d == Finalize(c, ranking))
  {
    hide Finalize;
    assert AnyOpen(c.queue.jobs) <==> StillOpen(c);
  }

  // ----- Executing -----

  /** The experiment whose job this worker is executing. */
  ghost predicate Executes(c: Campaign, worker: string, e: nat) {
    && worker in c.queue.executing && c.queue.executing[worker] < |c.queue.jobs|
    && c.queue.jobs[c.queue.executing[worker]].experiment == Some(e) && e < |c.experiments|
  }

  /**
    What a handler leaves: an experiment its session saw unfinished is completed unless the handler failed before that;
    no other row changes; and the budget is the one the session had read, with one more experiment when it was counted.
   */
  lemma HandlerWrites(c: Campaign, worker: string, h: Handler, e: nat)
    requires worker in c.views
    ensures var d, view := Work(c, worker, h), c.views[worker];
            var completes := Executes(c, worker, e) && !view.completed && (h.Finishes? || h.Late?);
            && |d.experiments| == |c.experiments|
            && (completes ==>
                  && d.experiments == c.experiments[e := Experiment(true, false, c.experiments[e].evaluations)]
                  && d.budget.experiments == view.budget.experiments + if h.Late? && !h.counted then 0 else 1)
            && ((forall x :: !Executes(c, worker, x)) || view.completed || h.Early? ==>
                  d.experiments == c.experiments && d.budget == view.budget)
            && d.budget.tests == view.budget.tests
            && d.queue == c.queue && d.views == c.views && d.status == c.status
  {
    if Executing(c, worker).Some? && Executing(c, worker).value < |c.experiments| {
      assert Executes(c, worker, Executing(c, worker).value);
    }
  }

  /** What a session reads when it starts: the budget as it is, and whether its experiment is completed. */
  lemma BeginReads(c: Campaign, worker: string, j: nat)
    requires worker !in c.queue.executing && j < |c.queue.jobs|
    requires c.queue.jobs[j].status == Q.Running && c.queue.jobs[j].worker == Some(worker)
    ensures var d, e := Apply(c, Begin(worker, j)), c.queue.jobs[j].experiment;
            && worker in d.queue.executing && d.queue.executing[worker] == j
            && d.views == c.views[worker := View(c.budget, e.Some? && e.value < |c.experiments|
                                                           && c.experiments[e.value].completed)]
            && d.experiments == c.experiments && d.budget == c.budget && d.status == c.status
  {
  }

  /**
    The calls on one job, recovery and the clock are the queue's own: they leave every job as the queue's laws say, and
    touch nothing else of the campaign.
   */
  lemma QueueCallsTouchJobs(c: Campaign, ev: Event, e: Q.Event, j: nat)
    requires forall i :: 0 <= i < |c.queue.jobs| ==> c.queue.jobs[i].attempts >= 0
    requires j < |c.queue.jobs|
    requires match ev
             case Claim(worker, k) => e == Q.Claim(worker, k)
             case Heartbeat(worker, k) => e == Q.Heartbeat(worker, k)
             case CancelJob(k) => e == Q.CancelJob(k)
             case RecoverStale(limit) => e == Q.Recover(limit)
             case Tick(seconds) => e == Q.Tick(seconds)
             case _ => false
    ensures var d := Apply(c, ev);
            && d == c.(queue := d.queue) && |d.queue.jobs| == |c.queue.jobs| && d.queue.executing == c.queue.executing
            && d.queue.now == c.queue.now + (if ev.Tick? then ev.seconds else 0)
            && L.Becomes(c.queue, e, j, d.queue.jobs[j])
  {
    hide L.Becomes, Q.Apply;
    KeepsExecuting(c.queue, e);
    L.JobsBecome(c.queue, e, j);
  }

  lemma KeepsExecuting(q: Q.Queue, e: Q.Event)
    requires e.Claim? || e.Heartbeat? || e.CancelJob? || e.Recover? || e.Tick?
    ensures Q.Apply(q, e).executing == q.executing && |Q.Apply(q, e).jobs| == |q.jobs|
  {
  }

  /** Reading the campaign again gives a session the budget as it is now, and nothing else. */
  lemma ReloadReads(c: Campaign, worker: string)
    ensures var d := Apply(c, Reload(worker));
            && (worker !in c.views ==> d == c)
            && (worker in c.views ==> d == c.(views := c.views[worker := View(c.budget, c.views[worker].completed)]))
  {
  }

  /** How a job ends, by how its handler ended, the cancellation request, and the attempts left. */
  lemma FinishEndsJob(c: Campaign, worker: string, h: Handler, sawCancel: bool, ranking: seq<nat>)
    requires worker in c.views && worker in c.queue.executing && c.queue.executing[worker] < |c.queue.jobs|
    requires IsRanking(Work(c, worker, h).experiments, ranking)
    ensures var d, j := Apply(c, Finish(worker, h, sawCancel, ranking)), c.queue.executing[worker];
            && |d.queue.jobs| == |c.queue.jobs|
            && (forall i :: 0 <= i < |c.queue.jobs| && i != j ==> d.queue.jobs[i] == c.queue.jobs[i])
            && d.views == c.views - {worker} && d.queue.executing == c.queue.executing - {worker}
            && d.queue.jobs[j].status
               == if c.queue.jobs[j].cancelRequested && (h.Finishes? || sawCancel) then Q.Cancelled
                  else if h.Finishes? then Q.Succeeded
                  else if h.transient && c.queue.jobs[j].attempts < c.queue.jobs[j].maxAttempts then Q.Retrying
                  else Q.Failed
  {
    hide Work, Finalize, Q.Backoff;
    var worked := Work(c, worker, h);
    WorkKeepsQueue(c, worker, h);
    var done := OnQueue(worked, Q.Finish(worker, OutcomeOf(h), sawCancel)).(views := c.views - {worker});
    RefreshDecides(done, ranking);
    FinalizeTests(done, ranking);
  }

  lemma WorkKeepsQueue(c: Campaign, worker: string, h: Handler)
    requires worker in c.views
    ensures Work(c, worker, h).queue == c.queue && Work(c, worker, h).views == c.views
  {
  }

  // ----- Recovering and cancelling -----

  /** Recovery after an interruption gives every uncompleted experiment of a queued or running campaign a job. */
  lemma InterruptedIsRestored(c: Campaign, ranking: seq<nat>)
    requires IsRanking(c.experiments, ranking)
    ensures var d := Apply(c, RecoverInterrupted(ranking));
            && (c.status != QueuedUp && c.status != Active ==> d == c)
            && (c.status == QueuedUp || c.status == Active ==>
                  && (forall e: nat :: HasJob(d.queue.jobs, e) <==>
                        HasJob(c.queue.jobs, e) || (e < |c.experiments| && !c.experiments[e].completed))
                  && |c.queue.jobs| <= |d.queue.jobs| && d.queue.jobs[..|c.queue.jobs|] == c.queue.jobs
                  && (StillOpen(d) ==> d.status == Active && d.experiments == c.experiments))
  {
    hide CreateJobs, Pending, Finalize;
    var restored := CreateJobs(c, Pending(c.experiments));
    JobsAreCreated(c, Pending(c.experiments));
    PendingAre(c.experiments);
    RefreshDecides(restored, ranking);
    FinalizeTests(restored, ranking);
    hide HasJob;
  }

  /** Cancelling a campaign cancels its waiting jobs and no other, and touches nothing else. */
  lemma CancelStops(c: Campaign)
    ensures var d := Apply(c, CancelAll);
            && d == c.(queue := d.queue, status := CancelledByUser) && |d.queue.jobs| == |c.queue.jobs|
            && d.queue.now == c.queue.now && d.queue.executing == c.queue.executing
            && forall i :: 0 <= i < |c.queue.jobs| ==>
                 var job := c.queue.jobs[i];
                 d.queue.jobs[i]
                 == if job.campaign == 0 && (job.status == Q.Queued || job.status == Q.Retrying)
                    then job.(status := Q.Cancelled) else job
  {
  }
}
