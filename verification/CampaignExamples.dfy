/** Short lease-respecting runs of a campaign that show where its laws stop. */
module CampaignExamples {
  import opened Common
  import Q = JobQueue
  import opened CampaignWork
  import opened CampaignRuns

  // ----- Runs of one job -----

  lemma Next(c: Campaign, events: seq<Event>, n: nat)
    requires n < |events|
    ensures Run(c, events[..n + 1]) == Apply(Run(c, events[..n]), events[n])
  {
    assert events[..n + 1][..n] == events[..n];
    hide Apply;
  }

  /** A first job, queued at the start; leased; and done. */
  const FIRST_JOB: Q.Job := Q.NewJob(0, Some(0), 3, 0, 0)
  const SECOND_JOB: Q.Job := Q.NewJob(0, Some(1), 3, 0, 0)

  function Leased(job: Q.Job, worker: string): Q.Job { Q.Claimed(job, worker, 0) }

  function Succeeded(job: Q.Job): Q.Job { job.(status := Q.Succeeded) }

  const UNTESTED: Experiment := Experiment(false, false, 0)
  const TESTED: Experiment := Experiment(true, true, 1)

  lemma PendingOne()
    ensures Pending([UNTESTED]) == [0]
  {
    assert [UNTESTED][..0] == [];
    assert Pending([]) == [] && [] + [0] == [0];
  }

  lemma CreateFirst(c: Campaign)
    requires c.queue == Q.Empty(0) && c.maxAttempts == 3
    ensures CreateJobs(c, [0]) == c.(queue := Q.Queue([FIRST_JOB], 0, map[]))
  {
    assert [0][..0] == [];
    assert CreateJobs(c, []) == c;
    assert [] + [FIRST_JOB] == [FIRST_JOB];
  }

  lemma OneIsQueued(c: Campaign)
    requires c == Planned(1, 1, 3, 0)
    ensures Apply(c, RunCampaign(None)) == c.(queue := Q.Queue([FIRST_JOB], 0, map[]), status := QueuedUp)
  {
    hide CreateJobs, Pending;
    assert c.experiments == [UNTESTED];
    PendingOne();
    CreateFirst(c);
  }

  lemma OneIsRanked(es: seq<Experiment>)
    requires es == [Experiment(true, false, 0)]
    ensures IsRanking(es, [0]) && Evaluate(es, Top([0])) == [TESTED] && TestedCount(es) == 0 && TestedCount([TESTED]) == 1
  {
    assert [0][..0] == [] && es[..0] == [] && [TESTED][..0] == [];
    assert Evaluate(es, []) == es;
    assert TestedCount([]) == 0;
    assert [0][0] == 0;
  }

  /**
    A run from a planned campaign: it is cancelled while its job is executing, and the job's own finish makes it
    completed.
   */
  lemma {:induction false} CancellationIsForgotten()
    ensures var start := Planned(1, 1, 3, 0);
            var events := [RunCampaign(None), Claim("a", 0), Begin("a", 0), CancelAll, Finish("a", Finishes, false, [0])];
            && RespectfulRun(start, events)
            && Run(start, events[..4]).status == CancelledByUser && Run(start, events).status == Complete
  {
    ForgettingRun(Planned(1, 1, 3, 0),
                  [RunCampaign(None), Claim("a", 0), Begin("a", 0), CancelAll, Finish("a", Finishes, false, [0])]);
  }

  lemma {:induction false} ForgettingRun(start: Campaign, events: seq<Event>)
    requires start == Planned(1, 1, 3, 0) && |events| == 5
    requires events[0] == RunCampaign(None) && events[1] == Claim("a", 0) && events[2] == Begin("a", 0)
    requires events[3] == CancelAll && events[4] == Finish("a", Finishes, false, [0])
    ensures RespectfulRun(start, events)
    ensures Run(start, events[..4]).status == CancelledByUser && Run(start, events).status == Complete
  {
    hide Run, Planned, Apply;
    RespectsLeases(start, events);
    assert events[..5] == events && events[..0] == [];
    RunOfNothing(start);
    Next(start, events, 0);
    Next(start, events, 1);
    Next(start, events, 2);
    Next(start, events, 3);
    Next(start, events, 4);
    OneIsQueued(start);
    var queued := start.(queue := Q.Queue([FIRST_JOB], 0, map[]), status := QueuedUp);
    PlannedOne(start);
    OneIsLeased(queued);
    var leased := queued.(queue := Q.Queue([Leased(FIRST_JOB, "a")], 0, map["a" := 0]),
                          views := map["a" := View(Budget(0, 0), false)]);
    OneIsCancelled(leased);
    OneIsFinished(leased.(status := CancelledByUser));
  }

  lemma RespectsLeases(c: Campaign, events: seq<Event>)
    requires forall i :: 0 <= i < |events| ==> !events[i].RecoverStale?
    ensures RespectfulRun(c, events)
  {
  }

  lemma PlannedOne(start: Campaign)
    requires start == Planned(1, 1, 3, 0)
    ensures start.experiments == [UNTESTED] && start.budget == Budget(0, 0) && start.views == map[]
  {
  }

  lemma RunOfNothing(c: Campaign)
    ensures Run(c, []) == c
  {
  }

  lemma OneIsLeased(c: Campaign)
    requires c.queue == Q.Queue([FIRST_JOB], 0, map[]) && c.experiments == [UNTESTED] && c.views == map[]
    requires c.budget == Budget(0, 0)
    ensures Apply(Apply(c, Claim("a", 0)), Begin("a", 0))
            == c.(queue := Q.Queue([Leased(FIRST_JOB, "a")], 0, map["a" := 0]),
                  views := map["a" := View(Budget(0, 0), false)])
  {
    assert Q.Choosable([FIRST_JOB], 0, 0);
    assert [FIRST_JOB][0 := Leased(FIRST_JOB, "a")] == [Leased(FIRST_JOB, "a")];
  }

  /** A run whose handler fails after completing its experiment: the completion is never counted. */
  lemma {:induction false} CountersCanLag()
    ensures var start := Planned(1, 1, 3, 0);
            var events := [RunCampaign(None), Claim("a", 0), Begin("a", 0), Finish("a", Late(true, false), false, [0])];
            var c := Run(start, events);
            RespectfulRun(start, events) && CompletedCount(c.experiments) == 1 && c.budget.experiments == 0
  {
    LaggingRun(Planned(1, 1, 3, 0),
               [RunCampaign(None), Claim("a", 0), Begin("a", 0), Finish("a", Late(true, false), false, [0])]);
  }

  lemma {:induction false} LaggingRun(start: Campaign, events: seq<Event>)
    requires start == Planned(1, 1, 3, 0) && |events| == 4
    requires events[0] == RunCampaign(None) && events[1] == Claim("a", 0) && events[2] == Begin("a", 0)
    requires events[3] == Finish("a", Late(true, false), false, [0])
    ensures RespectfulRun(start, events)
    ensures var c := Run(start, events); CompletedCount(c.experiments) == 1 && c.budget.experiments == 0
  {
    hide Run, Planned, Apply;
    RespectsLeases(start, events);
    assert events[..4] == events && events[..0] == [];
    RunOfNothing(start);
    Next(start, events, 0);
    Next(start, events, 1);
    Next(start, events, 2);
    Next(start, events, 3);
    OneIsQueued(start);
    PlannedOne(start);
    var queued := start.(queue := Q.Queue([FIRST_JOB], 0, map[]), status := QueuedUp);
    OneIsLeased(queued);
    OneFailsLate(queued.(queue := Q.Queue([Leased(FIRST_JOB, "a")], 0, map["a" := 0]),
                         views := map["a" := View(Budget(0, 0), false)]));
  }

  lemma OneFailsLate(c: Campaign)
    requires c.queue == Q.Queue([Leased(FIRST_JOB, "a")], 0, map["a" := 0]) && c.experiments == [UNTESTED]
    requires c.views == map["a" := View(Budget(0, 0), false)]
    ensures var d := Apply(c, Finish("a", Late(true, false), false, [0]));
            CompletedCount(d.experiments) == 1 && d.budget.experiments == 0
  {
    hide Evaluate, TestedCount, Q.Backoff;
    var done := Committed(c, "a", Late(true, false), false);
    assert Work(c, "a", Late(true, false)).experiments == [Experiment(true, false, 0)];
    OneIsRanked(done.experiments);
    assert done.queue.jobs[0].status == Q.Retrying;
    assert AnyOpen(done.queue.jobs);
    assert done.experiments[..0] == [];
    assert CompletedCount([]) == 0;
  }

  lemma OneIsCancelled(c: Campaign)
    requires c.queue == Q.Queue([Leased(FIRST_JOB, "a")], 0, map["a" := 0])
    ensures Apply(c, CancelAll) == c.(status := CancelledByUser)
  {
    var job := Leased(FIRST_JOB, "a");
    assert Q.CancelledWith(job, 0) == job;
    assert Q.Apply(c.queue, Q.CancelCampaign(0)).jobs == [job];
  }

  lemma OneIsFinished(c: Campaign)
    requires c.queue == Q.Queue([Leased(FIRST_JOB, "a")], 0, map["a" := 0]) && c.experiments == [UNTESTED]
    requires c.views == map["a" := View(Budget(0, 0), false)] && c.status == CancelledByUser
    ensures Apply(c, Finish("a", Finishes, false, [0])).status == Complete
  {
    hide Evaluate, TestedCount;
    var done := Committed(c, "a", Finishes, false);
    assert Work(c, "a", Finishes).experiments == [Experiment(true, false, 0)];
    OneIsRanked(done.experiments);
    assert done.queue.jobs == [Succeeded(Leased(FIRST_JOB, "a"))];
    assert !AnyOpen(done.queue.jobs) && !AnyFailed(done.queue.jobs);
  }

  // ----- A run whose second worker finishes with an old budget -----

  const DONE: Experiment := Experiment(true, false, 0)

  /** Both jobs are leased and executing, and both sessions have read the empty budget. */
  ghost predicate BothExecute(c: Campaign) {
    && c.queue == Q.Queue([Leased(FIRST_JOB, "a"), Leased(SECOND_JOB, "b")], 0, map["a" := 0, "b" := 1])
    && c.views == map["a" := View(Budget(0, 0), false), "b" := View(Budget(0, 0), false)]
    && c.experiments == [UNTESTED, UNTESTED] && c.budget == Budget(0, 0)
  }

  /** One has finished, counting its experiment; the other still has the empty budget in view. */
  ghost predicate OneExecutes(c: Campaign, first: Experiment, budget: Budget) {
    && c.queue == Q.Queue([Succeeded(Leased(FIRST_JOB, "a")), Leased(SECOND_JOB, "b")], 0, map["b" := 1])
    && c.views == map["b" := View(Budget(0, 0), false)]
    && c.experiments == [first, UNTESTED] && c.budget == budget
  }

  /**
    A run in which no handler fails: while two workers execute, the first finishes and is tested, and the second
    writes back the budget it had read before. Both counters end one behind.
   */
  lemma {:induction false} StaleBudgetLags()
    ensures var start := Planned(2, 2, 3, 0);
            var events := [RunCampaign(None), Claim("a", 0), Claim("b", 1), Begin("a", 0), Begin("b", 1),
                           Finish("a", Finishes, false, [0]), Report([0]), Finish("b", Finishes, false, [0, 1])];
            var c := Run(start, events);
            && RespectfulRun(start, events)
            && CompletedCount(c.experiments) == 2 && TestedCount(c.experiments) == 2 && c.budget == Budget(1, 1)
  {
    StaleRun(Planned(2, 2, 3, 0), [RunCampaign(None), Claim("a", 0), Claim("b", 1), Begin("a", 0), Begin("b", 1),
                                   Finish("a", Finishes, false, [0]), Report([0]), Finish("b", Finishes, false, [0, 1])]);
  }

  lemma {:induction false} StaleRun(start: Campaign, events: seq<Event>)
    requires start == Planned(2, 2, 3, 0) && |events| == 8
    requires events[0] == RunCampaign(None) && events[1] == Claim("a", 0) && events[2] == Claim("b", 1)
    requires events[3] == Begin("a", 0) && events[4] == Begin("b", 1) && events[5] == Finish("a", Finishes, false, [0])
    requires events[6] == Report([0]) && events[7] == Finish("b", Finishes, false, [0, 1])
    ensures RespectfulRun(start, events)
    ensures var c := Run(start, events);
            CompletedCount(c.experiments) == 2 && TestedCount(c.experiments) == 2 && c.budget == Budget(1, 1)
  {
    hide Run, Planned, Apply, CompletedCount, TestedCount, BothExecute, OneExecutes;
    RespectsLeases(start, events);
    assert events[..8] == events && events[..0] == [];
    RunOfNothing(start);
    Next(start, events, 0);
    Next(start, events, 1);
    Next(start, events, 2);
    Next(start, events, 3);
    Next(start, events, 4);
    Next(start, events, 5);
    Next(start, events, 6);
    Next(start, events, 7);
    TwoAreQueued(start);
    TwoAreLeased(Run(start, events[..1]));
    TwoBegin(Run(start, events[..3]));
    FirstFinishes(Run(start, events[..5]));
    FirstIsTested(Run(start, events[..6]));
    SecondFinishes(Run(start, events[..7]));
  }

  ghost predicate Fresh(c: Campaign, jobs: seq<Q.Job>) {
    && c.queue == Q.Queue(jobs, 0, map[]) && c.views == map[]
    && c.experiments == [UNTESTED, UNTESTED] && c.budget == Budget(0, 0)
  }

  lemma TwoAreQueued(c: Campaign)
    requires c == Planned(2, 2, 3, 0)
    ensures Fresh(Apply(c, RunCampaign(None)), [FIRST_JOB, SECOND_JOB])
  {
    hide CreateJobs, Pending;
    assert c.experiments == [UNTESTED, UNTESTED];
    PendingTwo();
    CreateFirst(c);
    CreateSecond(c);
  }

  lemma PendingTwo()
    ensures Pending([UNTESTED, UNTESTED]) == [0, 1]
  {
    PendingOne();
    assert [UNTESTED, UNTESTED][..1] == [UNTESTED];
    assert [0] + [1] == [0, 1];
  }

  lemma CreateSecond(c: Campaign)
    requires c.maxAttempts == 3 && CreateJobs(c, [0]) == c.(queue := Q.Queue([FIRST_JOB], 0, map[]))
    ensures CreateJobs(c, [0, 1]) == c.(queue := Q.Queue([FIRST_JOB, SECOND_JOB], 0, map[]))
  {
    hide CreateJob, CreateJobs;
    assert [0, 1] == [0] + [1];
    CreateOneMore(c, [0], 1);
    AddSecond(c.(queue := Q.Queue([FIRST_JOB], 0, map[])));
  }

  lemma CreateOneMore(c: Campaign, planned: seq<nat>, e: nat)
    ensures CreateJobs(c, planned + [e]) == CreateJob(CreateJobs(c, planned), e)
  {
    assert (planned + [e])[..|planned|] == planned;
  }

  lemma AddSecond(c: Campaign)
    requires c.maxAttempts == 3 && c.queue == Q.Queue([FIRST_JOB], 0, map[])
    ensures CreateJob(c, 1) == c.(queue := Q.Queue([FIRST_JOB, SECOND_JOB], 0, map[]))
  {
    assert !HasJob([FIRST_JOB], 1);
    assert [FIRST_JOB] + [SECOND_JOB] == [FIRST_JOB, SECOND_JOB];
  }

  lemma TwoAreLeased(c: Campaign)
    requires Fresh(c, [FIRST_JOB, SECOND_JOB])
    ensures Fresh(Apply(Apply(c, Claim("a", 0)), Claim("b", 1)), [Leased(FIRST_JOB, "a"), Leased(SECOND_JOB, "b")])
  {
    assert Q.Choosable([FIRST_JOB, SECOND_JOB], 0, 0);
    var jobs := [FIRST_JOB, SECOND_JOB][0 := Leased(FIRST_JOB, "a")];
    assert jobs == [Leased(FIRST_JOB, "a"), SECOND_JOB];
    assert Q.Choosable(jobs, 0, 1);
    assert jobs[1 := Leased(SECOND_JOB, "b")] == [Leased(FIRST_JOB, "a"), Leased(SECOND_JOB, "b")];
  }

  lemma TwoBegin(c: Campaign)
    requires Fresh(c, [Leased(FIRST_JOB, "a"), Leased(SECOND_JOB, "b")])
    ensures BothExecute(Apply(Apply(c, Begin("a", 0)), Begin("b", 1)))
  {
  }

  lemma FirstFinishes(c: Campaign)
    requires BothExecute(c)
    ensures OneExecutes(Apply(c, Finish("a", Finishes, false, [0])), DONE, Budget(1, 0))
  {
    hide Evaluate, TestedCount;
    var done := Committed(c, "a", Finishes, false);
    var jobs := [Succeeded(Leased(FIRST_JOB, "a")), Leased(SECOND_JOB, "b")];
    assert done.queue.jobs == jobs && done.queue.executing == map["b" := 1];
    assert done.experiments == [DONE, UNTESTED] && done.views == map["b" := View(Budget(0, 0), false)];
    assert [0][0] == 0;
    assert IsRanking(done.experiments, [0]);
    assert jobs[1].status == Q.Running;
    assert AnyOpen(jobs);
  }

  lemma FirstIsTested(c: Campaign)
    requires OneExecutes(c, DONE, Budget(1, 0))
    ensures OneExecutes(Apply(c, Report([0])), TESTED, Budget(1, 1))
  {
    hide Evaluate, TestedCount;
    assert [0][0] == 0;
    assert IsRanking(c.experiments, [0]);
    EvaluatesFirst(c.experiments);
    CountsOfTwo(c.experiments);
    CountsOfTwo([TESTED, UNTESTED]);
  }

  lemma EvaluatesFirst(es: seq<Experiment>)
    requires es == [DONE, UNTESTED]
    ensures Evaluate(es, [0]) == [TESTED, UNTESTED]
  {
    assert [0][..0] == [];
    assert Evaluate(es, []) == es;
    assert es[0 := TESTED] == [TESTED, UNTESTED];
  }

  lemma EvaluatesSecond(es: seq<Experiment>)
    requires es == [TESTED, DONE]
    ensures Evaluate(es, [0, 1]) == [TESTED, TESTED]
  {
    assert [0, 1][..1] == [0] && [0][..0] == [];
    assert Evaluate(es, []) == es && Evaluate(es, [0]) == es;
    assert es[1 := TESTED] == [TESTED, TESTED];
  }

  lemma CountsOfTwo(es: seq<Experiment>)
    requires |es| == 2
    ensures CompletedCount(es) == (if es[0].completed then 1 else 0) + if es[1].completed then 1 else 0
    ensures TestedCount(es) == (if es[0].tested then 1 else 0) + if es[1].tested then 1 else 0
  {
    assert es[..1] == [es[0]] && es[..1][..0] == [];
    assert CompletedCount([]) == 0 && TestedCount([]) == 0;
  }

  lemma SecondFinishes(c: Campaign)
    requires OneExecutes(c, TESTED, Budget(1, 1))
    ensures var d := Apply(c, Finish("b", Finishes, false, [0, 1]));
            CompletedCount(d.experiments) == 2 && TestedCount(d.experiments) == 2 && d.budget == Budget(1, 1)
  {
    hide Evaluate, TestedCount, CompletedCount;
    var done := Committed(c, "b", Finishes, false);
    var jobs := [Succeeded(Leased(FIRST_JOB, "a")), Succeeded(Leased(SECOND_JOB, "b"))];
    assert done.queue.jobs == jobs && done.experiments == [TESTED, DONE] && done.budget == Budget(1, 0);
    assert [0, 1][0] == 0 && [0, 1][1] == 1;
    assert IsRanking(done.experiments, [0, 1]);
    assert !AnyOpen(jobs) && !AnyFailed(jobs);
    EvaluatesSecond(done.experiments);
    CountsOfTwo(done.experiments);
    CountsOfTwo([TESTED, TESTED]);
  }
}
