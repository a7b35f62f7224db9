/** One campaign's experiments, jobs, budget counters and locked test evaluations. */
module CampaignWork {
  import opened Common
  import Q = JobQueue

  /** A planned variant; `tested` is the presence of test metrics, `evaluations` counts runs on the test split. */
  datatype Experiment = Experiment(completed: bool, tested: bool, evaluations: nat)

  datatype Budget = Budget(experiments: int, tests: int)

  datatype Status = Created | QueuedUp | Active | Complete | Broken | CancelledByUser

  /** What an executing worker's session has read: the budget, and whether its experiment was already completed. */
  datatype View = View(budget: Budget, completed: bool)

  datatype Campaign = Campaign(
    queue: Q.Queue, experiments: seq<Experiment>, maxExperiments: nat, maxAttempts: int,
    status: Status, budget: Budget, views: map<string, View>)

  function Planned(count: nat, maxExperiments: nat, maxAttempts: int, now: int): Campaign
    requires count <= maxExperiments
  {
    Campaign(Q.Empty(now), seq(count, _ => Experiment(false, false, 0)), maxExperiments, maxAttempts,
             Created, Budget(0, 0), map[])
  }

  // ----- Planning -----

  /** Every symbol with every variant, symbols outermost. */
  function Product(symbols: seq<string>, variants: nat): seq<(string, nat)>
  {
    if symbols == [] then []
    else Product(symbols[..|symbols| - 1], variants) + seq(variants, v => (symbols[|symbols| - 1], v))
  }

  /** Plans the first variants of the product, stopping at the budget. */
  method PlanCampaign(symbols: seq<string>, variants: nat, maxExperiments: int) returns (planned: seq<(string, nat)>)
    ensures planned <= Product(symbols, variants)
    ensures maxExperiments >= 0 ==>
              |planned| == if |Product(symbols, variants)| <= maxExperiments then |Product(symbols, variants)|
                           else maxExperiments
    ensures maxExperiments < 0 ==> planned == []
  {
    planned := [];
    assert symbols[..0] == [];
    var i := 0;
    while i < |symbols|
      invariant 0 <= i <= |symbols|
      invariant planned == Product(symbols[..i], variants)
      invariant maxExperiments >= 0 ==> |planned| <= maxExperiments
      invariant maxExperiments < 0 ==> planned == []
    {
      assert symbols[..i + 1][..i] == symbols[..i];
      var v := 0;
      ghost var row := seq(variants, v => (symbols[i], v));
      while v < variants
        invariant 0 <= v <= variants
        invariant planned == Product(symbols[..i], variants) + row[..v]
        invariant maxExperiments >= 0 ==> |planned| <= maxExperiments
        invariant maxExperiments < 0 ==> planned == []
      {
        if |planned| >= maxExperiments { break; }
        assert row[..v + 1] == row[..v] + [(symbols[i], v)];
        planned := planned + [(symbols[i], v)];
        v := v + 1;
      }
      assert planned <= Product(symbols[..i + 1], variants);
      if |planned| >= maxExperiments {
        ProductPrefix(symbols, variants, i + 1);
        return;
      }
      assert row[..variants] == row;
      i := i + 1;
    }
    assert symbols[..|symbols|] == symbols;
  }

  lemma {:induction false} ProductPrefix(symbols: seq<string>, variants: nat, i: nat)
    requires i <= |symbols|
    ensures Product(symbols[..i], variants) <= Product(symbols, variants)
    decreases |symbols|
  {
    if i == |symbols| {
      assert symbols[..i] == symbols;
    } else {
      var front := symbols[..|symbols| - 1];
      assert front[..i] == symbols[..i];
      ProductPrefix(front, variants, i);
    }
  }

  // ----- Creating jobs -----

  predicate HasJob(jobs: seq<Q.Job>, e: nat) { exists i :: 0 <= i < |jobs| && jobs[i].experiment == Some(e) }

  /** A job for the experiment, unless its idempotency key already has one. */
  function CreateJob(c: Campaign, e: nat): Campaign {
    if HasJob(c.queue.jobs, e) then c
    else c.(queue := Q.Apply(c.queue, Q.Enqueue(0, Some(e), c.maxAttempts, 0)))
  }

  /** The planned experiments in creation order. */
  function Pending(es: seq<Experiment>): (r: seq<nat>)
    ensures forall i :: 0 <= i < |r| ==> r[i] < |es|
  {
    if es == [] then []
    else Pending(es[..|es| - 1]) + if es[|es| - 1].completed then [] else [|es| - 1]
  }

  function CreateJobs(c: Campaign, planned: seq<nat>): (d: Campaign)
    ensures d == c.(queue := d.queue)
  {
    if planned == [] then c else CreateJob(CreateJobs(c, planned[..|planned| - 1]), planned[|planned| - 1])
  }

  function FirstOf(planned: seq<nat>, batch: Option<nat>): seq<nat> {
    if batch.Some? && batch.value <= |planned| then planned[..batch.value] else planned
  }

  // ----- Finalization and the locked test split -----

  function CompletedCount(es: seq<Experiment>): nat
  {
    if es == [] then 0 else CompletedCount(es[..|es| - 1]) + if es[|es| - 1].completed then 1 else 0
  }

  function TestedCount(es: seq<Experiment>): nat
  {
    if es == [] then 0 else TestedCount(es[..|es| - 1]) + if es[|es| - 1].tested then 1 else 0
  }

  /** The ranked rows: each completed experiment once, in an order scores decide. */
  predicate IsRanking(es: seq<Experiment>, ranking: seq<nat>) {
    && (forall i :: 0 <= i < |ranking| ==> ranking[i] < |es| && es[ranking[i]].completed)
    && (forall i, j :: 0 <= i < j < |ranking| ==> ranking[i] != ranking[j])
    && (forall e :: 0 <= e < |es| && es[e].completed ==> e in ranking)
  }

  function Top(ranking: seq<nat>): seq<nat> { if |ranking| <= 3 then ranking else ranking[..3] }

  /** Evaluate each of the top experiments on the test split unless it has been already. */
  function Evaluate(es: seq<Experiment>, top: seq<nat>): (r: seq<Experiment>)
    requires forall i :: 0 <= i < |top| ==> top[i] < |es|
    ensures |r| == |es|
  {
    if top == [] then es
    else
      var before := Evaluate(es, top[..|top| - 1]);
      var e := top[|top| - 1];
      if before[e].tested then before
      else before[e := before[e].(tested := true, evaluations := before[e].evaluations + 1)]
  }

  function Finalize(c: Campaign, ranking: seq<nat>): Campaign
    requires IsRanking(c.experiments, ranking)
  {
    var after := Evaluate(c.experiments, Top(ranking));
    c.(experiments := after,
       budget := c.budget.(tests := c.budget.tests + TestedCount(after) - TestedCount(c.experiments)),
       status := if ranking != [] then Complete else c.status)
  }

  predicate AnyOpen(jobs: seq<Q.Job>) {
    exists i :: 0 <= i < |jobs| && (jobs[i].Waiting() || jobs[i].status == Q.Running)
  }

  predicate AnyFailed(jobs: seq<Q.Job>) { exists i :: 0 <= i < |jobs| && jobs[i].status == Q.Failed }

  function Refresh(c: Campaign, ranking: seq<nat>): Campaign
    requires IsRanking(c.experiments, ranking)
  {
    if AnyOpen(c.queue.jobs) then c.(status := Active)
    else if AnyFailed(c.queue.jobs) then c.(status := Broken)
    else if c.queue.jobs != [] then Finalize(c, ranking)
    else c
  }

  // ----- Events -----

  /** How far the handler got: `Late` errors come after the experiment was marked completed. */
  datatype Handler = Finishes | Late(transient: bool, counted: bool) | Early(transient: bool)

  function OutcomeOf(h: Handler): Q.Outcome {
    match h
    case Finishes => Q.Done
    case Late(transient, _) => if transient then Q.TransientError else Q.PermanentError
    case Early(transient) => if transient then Q.TransientError else Q.PermanentError
  }

  datatype Event =
    | RunCampaign(batch: Option<nat>)
    | RecoverInterrupted(ranking: seq<nat>)
    | Claim(worker: string, job: nat)
    | Heartbeat(worker: string, job: nat)
    | Begin(worker: string, job: nat)
    | Reload(worker: string)
    | Finish(worker: string, handler: Handler, sawCancel: bool, ranking: seq<nat>)
    | Crash(worker: string)
    | RecoverStale(staleAfter: int)
    | CancelJob(job: nat)
    | CancelAll
    | Report(ranking: seq<nat>)
    | Tick(seconds: nat)

  /** The experiment a worker is executing, if it is executing one. */
  function Executing(c: Campaign, worker: string): Option<nat> {
    if worker in c.queue.executing && c.queue.executing[worker] < |c.queue.jobs|
    then c.queue.jobs[c.queue.executing[worker]].experiment else None
  }

  /** What the handler writes: the experiment's row, and the whole budget from the session's own view. */
  function Work(c: Campaign, worker: string, h: Handler): Campaign
    requires worker in c.views
  {
    var view, e := c.views[worker], Executing(c, worker);
    if view.completed || h.Early? || e == None || e.value >= |c.experiments| then c.(budget := view.budget)
    else
      var row := c.experiments[e.value];
      c.(experiments := c.experiments[e.value := row.(completed := true, tested := false)],
         budget := view.budget.(experiments := view.budget.experiments + if h.Finishes? || h.counted then 1 else 0))
  }

  function OnQueue(c: Campaign, e: Q.Event): Campaign { c.(queue := Q.Apply(c.queue, e)) }

  /** A ranking that does not fit the completed experiments leaves the campaign as it was: that finalization is not taken. */
  function Apply(c: Campaign, ev: Event): Campaign {
    match ev
    case RunCampaign(batch) =>
      if c.status == CancelledByUser then c
      else
        var after := CreateJobs(c, FirstOf(Pending(c.experiments), batch));
        after.(status := if |after.queue.jobs| > |c.queue.jobs| then QueuedUp else c.status)
    case RecoverInterrupted(ranking) =>
      if (c.status == QueuedUp || c.status == Active) && IsRanking(c.experiments, ranking)
      then Refresh(CreateJobs(c, Pending(c.experiments)), ranking) else c
    case Claim(worker, j) => OnQueue(c, Q.Claim(worker, j))
    case Heartbeat(worker, j) => OnQueue(c, Q.Heartbeat(worker, j))
    case Begin(worker, j) =>
      var after := OnQueue(c, Q.Begin(worker, j));
      if worker in c.queue.executing || worker !in after.queue.executing then c
      else
        var e := Executing(after, worker);
        after.(views := c.views[worker := View(c.budget, e.Some? && e.value < |c.experiments| && c.experiments[e.value].completed)])
    case Reload(worker) =>
      if worker in c.views then c.(views := c.views[worker := c.views[worker].(budget := c.budget)]) else c
    case Finish(worker, handler, sawCancel, ranking) =>
      if worker !in c.queue.executing || worker !in c.views then c
      else
        var worked := Work(c, worker, handler);
        var done := OnQueue(worked, Q.Finish(worker, OutcomeOf(handler), sawCancel)).(views := c.views - {worker});
        if IsRanking(done.experiments, ranking) then Refresh(done, ranking) else c
    case Crash(worker) => OnQueue(c, Q.Crash(worker)).(views := c.views - {worker})
    case RecoverStale(staleAfter) => OnQueue(c, Q.Recover(staleAfter))
    case CancelJob(j) => OnQueue(c, Q.CancelJob(j))
    case CancelAll => OnQueue(c, Q.CancelCampaign(0)).(status := CancelledByUser)
    case Report(ranking) => if IsRanking(c.experiments, ranking) then Finalize(c, ranking) else c
    case Tick(seconds) => OnQueue(c, Q.Tick(seconds))
  }

  function Run(c: Campaign, events: seq<Event>): Campaign
  {
    if events == [] then c else Apply(Run(c, events[..|events| - 1]), events[|events| - 1])
  }

  predicate Respectful(c: Campaign, ev: Event) {
    ev.RecoverStale? ==> Q.Respectful(c.queue, Q.Recover(ev.staleAfter))
  }

  predicate RespectfulRun(c: Campaign, events: seq<Event>) {
    forall i :: 0 <= i < |events| ==> Respectful(Run(c, events[..i]), events[i])
  }
}
