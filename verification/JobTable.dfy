/** The campaign service's queue calls, updating the job table in place, against the queue's steps. */
module JobTable {
  import opened Common
  import opened JobQueue

  class CampaignQueue {
    var jobs: seq<Job>
    var now: int
    ghost var executing: map<string, nat>

    ghost function Value(): Queue
      reads this
    {
      Queue(jobs, now, executing)
    }

    constructor (now: int)
      ensures Value() == Empty(now)
    {
      jobs, this.now, executing := [], now, map[];
    }

    /** Leases the first row of the ordered query, if it has one. */
    method ClaimNextJob(worker: string) returns (claimed: Option<nat>)
      modifies this
      ensures claimed == Best(old(jobs), old(now))
      ensures claimed.Some? ==> Choosable(old(jobs), old(now), claimed.value)
      ensures Value() == if claimed.Some? then Apply(old(Value()), Claim(worker, claimed.value)) else old(Value())
    {
      BestIsFirst(jobs, now);
      claimed := Best(jobs, now);
      if claimed.Some? {
        var j := claimed.value;
        var job := jobs[j];
        jobs := jobs[j := job.(status := Running, worker := Some(worker), attempts := job.attempts + 1,
                               heartbeat := Some(now))];
      }
    }

    method BeatHeart(j: nat, worker: string)
      modifies this
      ensures Value() == Apply(old(Value()), Heartbeat(worker, j))
    {
      if j < |jobs| && jobs[j].status == Running && jobs[j].worker == Some(worker) {
        jobs := jobs[j := jobs[j].(heartbeat := Some(now))];
      }
    }

    /** Sends every running job with an expired heartbeat back to the queue, or fails it; returns how many. */
    method RecoverStaleJobs(staleAfter: int) returns (recovered: nat)
      modifies this
      ensures Value() == Apply(old(Value()), Recover(staleAfter))
      ensures recovered == |set i | 0 <= i < |old(jobs)| && Stale(old(jobs)[i], old(now) - staleAfter)|
    {
      hide RetryOrFail;
      var cutoff := now - staleAfter;
      recovered := 0;
      var rows := jobs;
      ghost var stale: set<nat> := {};
      for i := 0 to |rows|
        invariant now == old(now) && executing == old(executing) && |jobs| == |rows|
        invariant forall k :: 0 <= k < |rows| ==> jobs[k] == if k < i then Recovered(rows[k], cutoff, now) else rows[k]
        invariant stale == set k | 0 <= k < i && Stale(rows[k], cutoff)
        invariant recovered == |stale|
      {
        if Stale(rows[i], cutoff) {
          jobs := jobs[i := RetryOrFail(rows[i], true, now)];
          recovered := recovered + 1;
          stale := stale + {i};
        }
      }
      assert jobs == Apply(old(Value()), Recover(staleAfter)).jobs;
    }

    method RequestCancel(j: nat)
      modifies this
      ensures Value() == Apply(old(Value()), CancelJob(j))
    {
      if j >= |jobs| || jobs[j].Terminal() { return; }
      if jobs[j].status == Running {
        jobs := jobs[j := jobs[j].(cancelRequested := true)];
      } else {
        jobs := jobs[j := jobs[j].(status := Cancelled)];
      }
    }

    method CancelCampaignJobs(campaign: nat)
      modifies this
      ensures Value() == Apply(old(Value()), CancelCampaign(campaign))
    {
      var rows := jobs;
      for i := 0 to |rows|
        invariant now == old(now) && executing == old(executing) && |jobs| == |rows|
        invariant forall k :: 0 <= k < |rows| ==> jobs[k] == if k < i then CancelledWith(rows[k], campaign) else rows[k]
      {
        if rows[i].campaign == campaign && rows[i].Waiting() {
          jobs := jobs[i := rows[i].(status := Cancelled)];
        }
      }
      assert jobs == Apply(old(Value()), CancelCampaign(campaign)).jobs;
    }

    /** The check an execution starts with: the job must be leased by this worker. */
    method BeginExecution(j: nat, worker: string) returns (leased: bool)
      requires worker !in executing
      modifies this
      ensures leased == (j < |old(jobs)| && old(jobs)[j].status == Running && old(jobs)[j].worker == Some(worker))
      ensures Value() == Apply(old(Value()), Begin(worker, j))
    {
      leased := j < |jobs| && jobs[j].status == Running && jobs[j].worker == Some(worker);
      if leased {
        executing := executing[worker := j];
      }
    }

    /** The end of an execution; the lease is not looked at again. */
    method FinishExecution(j: nat, worker: string, outcome: Outcome, sawCancel: bool)
      requires worker in executing && executing[worker] == j < |jobs|
      modifies this
      ensures Value() == Apply(old(Value()), Finish(worker, outcome, sawCancel))
    {
      var job := jobs[j];
      if job.cancelRequested && (outcome == Done || sawCancel) {
        job := job.(status := Cancelled);
      } else if outcome == Done {
        job := job.(status := Succeeded);
      } else {
        job := RetryOrFail(job, outcome == TransientError, now);
      }
      jobs := jobs[j := job];
      executing := executing - {worker};
    }
  }
}
