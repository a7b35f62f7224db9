/** One campaign's row and its experiments, updated in place by the service's calls, against the steps of a campaign. */
module CampaignTable {
  import opened Common
  import Q = JobQueue
  import opened CampaignWork
  import opened CampaignRuns

  class ResearchCampaign {
    var jobs: seq<Q.Job>
    var now: int
    var experiments: seq<Experiment>
    const maxExperiments: nat
    const maxAttempts: int
    var status: Status
    var budget: Budget
    ghost var executing: map<string, nat>
    ghost var views: map<string, View>

    ghost function Value(): Campaign
      reads this
    {
      Campaign(Q.Queue(jobs, now, executing), experiments, maxExperiments, maxAttempts, status, budget, views)
    }

    constructor (count: nat, maxExperiments: nat, maxAttempts: int, now: int)
      requires count <= maxExperiments
      ensures Value() == Planned(count, maxExperiments, maxAttempts, now)
    {
      jobs, this.now, executing, views := [], now, map[], map[];
      experiments := seq(count, _ => Experiment(false, false, 0));
      this.maxExperiments, this.maxAttempts, status, budget := maxExperiments, maxAttempts, Created, Budget(0, 0);
    }

    /** Looks the idempotency key up, and adds a queued job when it is new. */
    method AddJob(e: nat) returns (created: bool)
      modifies this`jobs
      ensures created == !HasJob(old(jobs), e)
      ensures Value() == CreateJob(old(Value()), e)
      ensures |jobs| == |old(jobs)| + if created then 1 else 0
      ensures created ==> jobs[|jobs| - 1].Waiting()
    {
      for i := 0 to |jobs|
        invariant jobs == old(jobs)
        invariant forall k :: 0 <= k < i ==> jobs[k].experiment != Some(e)
      {
        if jobs[i].experiment == Some(e) { return false; }
      }
      jobs := jobs + [Q.NewJob(0, Some(e), maxAttempts, 0, now)];
      return true;
    }

    /** Queues jobs for experiments in order; true when any was new. */
    method AddJobs(planned: seq<nat>) returns (any: bool)
      modifies this`jobs
      ensures Value() == CreateJobs(old(Value()), planned)
      ensures any <==> |jobs| > |old(jobs)|
      ensures any ==> jobs[|jobs| - 1].Waiting()
    {
      any := false;
      assert planned[..0] == [];
      for i := 0 to |planned|
        invariant Value() == CreateJobs(old(Value()), planned[..i])
        invariant |jobs| >= |old(jobs)| && (any <==> |jobs| > |old(jobs)|)
        invariant any ==> jobs[|jobs| - 1].Waiting()
      {
        assert planned[..i + 1][..i] == planned[..i];
        var created := AddJob(planned[i]);
        any := any || created;
      }
      assert planned[..|planned|] == planned;
    }

    method RunCampaign(batch: Option<nat>) returns (ok: bool)
      modifies this`jobs, this`status
      ensures ok == (old(status) != CancelledByUser)
      ensures Value() == Apply(old(Value()), CampaignWork.RunCampaign(batch))
    {
      if status == CancelledByUser { return false; }
      var any := AddJobs(FirstOf(Pending(experiments), batch));
      if any { status := QueuedUp; }
      return true;
    }

    /**
      What executing a job does to its experiment and to the budget: nothing when the session saw the experiment
      completed, else completion with fresh results; the budget is written from what the session had read.
     */
    method RunCampaignExperiment(ghost worker: string, e: Option<nat>, view: View, h: Handler)
      requires worker in views && view == views[worker] && e == Executing(Value(), worker)
      modifies this`experiments, this`budget
      ensures Value() == Work(old(Value()), worker, h)
    {
      budget := view.budget;
      if e == None || e.value >= |experiments| || view.completed || h.Early? { return; }
      experiments := experiments[e.value := experiments[e.value].(completed := true, tested := false)];
      if h.Finishes? || h.counted {
        budget := budget.(experiments := budget.experiments + 1);
      }
    }

    /** Runs the test split for each given experiment that has no test metrics yet, and counts those it ran. */
    method RunLockedTestEvaluations(top: seq<nat>)
      requires forall i :: 0 <= i < |top| ==> top[i] < |experiments|
      modifies this`experiments, this`budget
      ensures experiments == Evaluate(old(experiments), top)
      ensures budget == old(budget).(tests := old(budget).tests + TestedCount(experiments) - TestedCount(old(experiments)))
    {
      var testEvaluations := 0;
      assert top[..0] == [];
      for i := 0 to |top|
        invariant |experiments| == |old(experiments)| && budget == old(budget)
        invariant experiments == Evaluate(old(experiments), top[..i])
        invariant testEvaluations == TestedCount(experiments) - TestedCount(old(experiments))
      {
        assert top[..i + 1][..i] == top[..i];
        if !experiments[top[i]].tested {
          var row := experiments[top[i]];
          var evaluated := row.(tested := true, evaluations := row.evaluations + 1);
          CountsAtOne(experiments, top[i], evaluated);
          experiments := experiments[top[i] := evaluated];
          testEvaluations := testEvaluations + 1;
        }
      }
      assert top[..|top|] == top;
      budget := budget.(tests := budget.tests + testEvaluations);
    }

    method FinalizeCampaign(ranking: seq<nat>)
      requires IsRanking(experiments, ranking)
      modifies this`experiments, this`budget, this`status
      ensures Value() == Finalize(old(Value()), ranking)
    {
      var top := if |ranking| <= 3 then ranking else ranking[..3];
      RunLockedTestEvaluations(top);
      if ranking != [] { status := Complete; }
    }

    method RefreshCampaignState(ranking: seq<nat>)
      requires IsRanking(experiments, ranking)
      modifies this`experiments, this`budget, this`status
      ensures Value() == Refresh(old(Value()), ranking)
    {
      var open, failed := false, false;
      for i := 0 to |jobs|
        invariant open <==> exists k :: 0 <= k < i && (jobs[k].Waiting() || jobs[k].status == Q.Running)
        invariant failed <==> exists k :: 0 <= k < i && jobs[k].status == Q.Failed
      {
        open := open || jobs[i].Waiting() || jobs[i].status == Q.Running;
        failed := failed || jobs[i].status == Q.Failed;
      }
      if open {
        status := Active;
      } else if failed {
        status := Broken;
      } else if jobs != [] {
        FinalizeCampaign(ranking);
      }
    }

    /** Restores missing jobs of a queued or running campaign; the ranking is the one its finalization would use. */
    method RecoverInterrupted(ranking: seq<nat>)
      requires IsRanking(experiments, ranking)
      modifies this`jobs, this`experiments, this`budget, this`status
      ensures Value() == Apply(old(Value()), CampaignWork.RecoverInterrupted(ranking))
    {
      if status == QueuedUp || status == Active {
        var restored := AddJobs(Pending(experiments));
        if restored { status := QueuedUp; }
        assert restored ==> AnyOpen(jobs);
        RefreshCampaignState(ranking);
      }
    }
  }
}
