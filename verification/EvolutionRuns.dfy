/** What every evolution run guarantees: its champion, its promotions, its specifications and its size. */
module EvolutionRuns {
  import opened Common
  import opened Evolution

  /** The stored champion: of the promoted candidates, in creation order, the first with the highest score. */
  function ChampionOf(cs: seq<Candidate>): Option<nat>
  {
    if cs == [] then None
    else
      var n := |cs| - 1;
      var front := ChampionOf(cs[..n]);
      if cs[n].status != Promoted then front
      else if front.Some? && front.value < n && cs[front.value].fitness.score >= cs[n].fitness.score then front
      else Some(n)
  }

  lemma {:induction false} ChampionIsBestPromoted(cs: seq<Candidate>)
    ensures var c := ChampionOf(cs);
            && (c == None <==> forall i :: 0 <= i < |cs| ==> cs[i].status != Promoted)
            && (c.Some? ==>
                  && c.value < |cs| && cs[c.value].status == Promoted
                  && forall i :: 0 <= i < |cs| && cs[i].status == Promoted ==> cs[i].fitness.score <= cs[c.value].fitness.score)
  {
    if cs != [] {
      var n := |cs| - 1;
      ChampionIsBestPromoted(cs[..n]);
      assert forall i :: 0 <= i < n ==> cs[..n][i] == cs[i];
    }
  }

  function PromotedIds(cs: seq<Candidate>): set<nat> { set i: nat | i < |cs| && cs[i].status == Promoted }

  // ----- The invariant -----

  predicate Named(spec: Spec) { spec.Valid() && spec.short.Some? && spec.long.Some? }

  /** Every candidate is valid, numbered by creation, and scored in the range of an evolution run. */
  predicate CandidatesOk(cs: seq<Candidate>) {
    forall i :: 0 <= i < |cs| ==> cs[i].id == i && Named(cs[i].spec) && 6.0 <= cs[i].fitness.score <= 88.0
  }

  predicate PopulationOk(population: seq<Entry>) {
    forall i :: 0 <= i < |population| ==> Named(population[i].spec)
  }

  /** The held champion is promoted, and ahead of every other promoted candidate by the margin. */
  predicate ChampionOk(s: State) {
    match s.champion
    case None => forall i :: 0 <= i < |s.candidates| ==> s.candidates[i].status != Promoted
    case Some(c) =>
      && c < |s.candidates| && s.candidates[c].status == Promoted
      && forall i :: 0 <= i < |s.candidates| && i != c && s.candidates[i].status == Promoted ==>
           s.candidates[i].fitness.score + 2.0 <= s.candidates[c].fitness.score
  }

  /** A decision falls on a highest-scoring candidate of each generation, and no unblocked one clears the champion's margin. */
  predicate DecisionsOk(s: State) {
    && (forall i, j :: 0 <= i < |s.candidates| && 0 <= j < |s.candidates| && s.candidates[i].status != Challenger
                       && s.candidates[j].generation == s.candidates[i].generation ==>
          s.candidates[j].fitness.score <= s.candidates[i].fitness.score)
    && (forall i :: 0 <= i < |s.candidates| && s.candidates[i].status != Challenger && !Blocked(s.candidates[i].fitness) ==>
          ChampionFitness(s).Some? && s.candidates[i].fitness.score < ChampionFitness(s).value.score + 2.0)
  }

  /** Each promotion has raised the champion's score by the margin. */
  ghost predicate PromotionsOk(s: State, generations: nat) {
    && |PromotedIds(s.candidates)| + s.rejected == generations
    && (s.champion == None ==> generations == 0)
    && (ChampionFitness(s).Some? ==>
          ChampionFitness(s).value.score >= 6.0 + 2.0 * (|PromotedIds(s.candidates)| - 1) as real)
  }

  predicate SizesOk(s: State, request: Request, generations: nat, initial: nat) {
    && |s.candidates| == (if generations == 0 then 0 else initial + (generations - 1) * request.populationSize)
    && |s.population| == (if generations == 0 then initial else request.populationSize)
    && forall i :: 0 <= i < |s.candidates| ==> s.candidates[i].generation < generations
  }

  ghost predicate Inv(s: State, request: Request, generations: nat, initial: nat) {
    && CandidatesOk(s.candidates) && PopulationOk(s.population) && ChampionOk(s) && DecisionsOk(s)
    && PromotionsOk(s, generations) && SizesOk(s, request, generations, initial)
  }

  // ----- One generation -----

  lemma BatchIsOk(population: seq<Entry>, first: nat, generation: nat, backtests: Backtests)
    requires PopulationOk(population)
    ensures var batch := Evaluated(population, first, generation, backtests);
            forall i :: 0 <= i < |batch| ==> Named(batch[i].spec) && 6.0 <= batch[i].fitness.score <= 88.0
  {
    hide FitnessScore, Named;
    forall i | 0 <= i < |population|
      ensures 6.0 <= Evaluated(population, first, generation, backtests)[i].fitness.score <= 88.0
    {
      ScoreRange(backtests(first + i, population[i].spec), 0.0, {}, population[i].spec);
    }
  }

  /** What a judgement needs of the batch: a best member at a known place. */
  ghost predicate BestAt(batch: seq<Candidate>, first: nat, generation: nat, k: nat) {
    && k < |batch|
    && (forall i :: 0 <= i < |batch| ==>
          && batch[i].id == first + i && batch[i].generation == generation && batch[i].status == Challenger
          && batch[i].fitness.score <= batch[k].fitness.score
          && Named(batch[i].spec) && 6.0 <= batch[i].fitness.score <= 88.0)
  }

  lemma BestIsFound(population: seq<Entry>, first: nat, generation: nat, backtests: Backtests) returns (k: nat)
    requires PopulationOk(population) && population != []
    ensures var batch := Evaluated(population, first, generation, backtests);
            BestAt(batch, first, generation, k) && Ranked(batch)[0] == batch[k]
  {
    hide Ranked, Named, FitnessScore;
    var batch := Evaluated(population, first, generation, backtests);
    BatchIsOk(population, first, generation, backtests);
    RankedDescends(batch);
    k :| 0 <= k < |batch| && batch[k] == Ranked(batch)[0];
  }

  lemma MarkedAt(batch: seq<Candidate>, first: nat, generation: nat, k: nat, status: Status)
    requires BestAt(batch, first, generation, k)
    ensures forall i :: 0 <= i < |batch| ==>
              Marked(batch, batch[k].id, status)[i] == if i == k then batch[k].(status := status) else batch[i]
  {
    hide Named;
  }

  lemma JudgedCandidates(s: State, batch: seq<Candidate>, generation: nat, k: nat)
    requires CandidatesOk(s.candidates) && BestAt(batch, |s.candidates|, generation, k) && Ranked(batch)[0] == batch[k]
    ensures var t := Judged(s, batch);
            var promote := Decide(ChampionFitness(s), batch[k].fitness) == Promote;
            && |t.candidates| == |s.candidates| + |batch| && t.candidates[..|s.candidates|] == s.candidates
            && (forall i :: 0 <= i < |batch| ==>
                  t.candidates[|s.candidates| + i]
                  == if i == k then batch[k].(status := if promote then Promoted else Rejected) else batch[i])
            && t.champion == (if promote then Some(|s.candidates| + k) else s.champion)
            && t.rejected == s.rejected + (if promote then 0 else 1)
  {
    hide Ranked, Decide, Named, Marked, Blocked;
    MarkedAt(batch, |s.candidates|, generation, k, Promoted);
    MarkedAt(batch, |s.candidates|, generation, k, Rejected);
  }

  lemma JudgedKeeps(s: State, batch: seq<Candidate>, generation: nat, k: nat)
    requires CandidatesOk(s.candidates) && ChampionOk(s) && DecisionsOk(s) && PromotionsOk(s, generation)
    requires forall i :: 0 <= i < |s.candidates| ==> s.candidates[i].generation < generation
    requires BestAt(batch, |s.candidates|, generation, k) && Ranked(batch)[0] == batch[k]
    ensures var t := Judged(s, batch);
            CandidatesOk(t.candidates) && ChampionOk(t) && DecisionsOk(t) && PromotionsOk(t, generation + 1)
  {
    hide Named, Judged, Ranked, FitnessScore;
    JudgedCandidates(s, batch, generation, k);
    var t, m := Judged(s, batch), |s.candidates|;
    forall i | 0 <= i < m
      ensures t.candidates[i] == s.candidates[i]
    {
      assert t.candidates[..m][i] == t.candidates[i];
    }
    forall i | m <= i < |t.candidates|
      ensures t.candidates[i].id == i && t.candidates[i].generation == generation
      ensures i != m + k ==> t.candidates[i].status == Challenger
    {
      var j := i - m;
      assert t.candidates[m + j] == if j == k then t.candidates[m + k] else batch[j];
    }
    JudgedSets(s, t, m + k);
    JudgedKeepsRest(s, t, batch, generation, k);
  }

  lemma JudgedSets(s: State, t: State, best: nat)
    requires |s.candidates| <= best < |t.candidates|
    requires forall i :: 0 <= i < |s.candidates| ==> t.candidates[i] == s.candidates[i]
    requires forall i :: |s.candidates| <= i < |t.candidates| && i != best ==> t.candidates[i].status == Challenger
    ensures |PromotedIds(t.candidates)|
            == |PromotedIds(s.candidates)| + if t.candidates[best].status == Promoted then 1 else 0
  {
    if t.candidates[best].status == Promoted {
      assert PromotedIds(t.candidates) == PromotedIds(s.candidates) + {best};
    } else {
      assert PromotedIds(t.candidates) == PromotedIds(s.candidates);
    }
  }

  lemma JudgedKeepsRest(s: State, t: State, batch: seq<Candidate>, generation: nat, k: nat)
    requires CandidatesOk(s.candidates) && ChampionOk(s) && DecisionsOk(s) && PromotionsOk(s, generation)
    requires forall i :: 0 <= i < |s.candidates| ==> s.candidates[i].generation < generation
    requires BestAt(batch, |s.candidates|, generation, k) && |t.candidates| == |s.candidates| + |batch|
    requires forall i :: 0 <= i < |s.candidates| ==> t.candidates[i] == s.candidates[i]
    requires var promote := Decide(ChampionFitness(s), batch[k].fitness) == Promote;
             && (forall i :: 0 <= i < |batch| ==>
                   t.candidates[|s.candidates| + i]
                   == if i == k then batch[k].(status := if promote then Promoted else Rejected) else batch[i])
             && t.champion == (if promote then Some(|s.candidates| + k) else s.champion)
             && t.rejected == s.rejected + (if promote then 0 else 1)
    requires |PromotedIds(t.candidates)|
             == |PromotedIds(s.candidates)| + if t.candidates[|s.candidates| + k].status == Promoted then 1 else 0
    ensures CandidatesOk(t.candidates) && ChampionOk(t) && DecisionsOk(t) && PromotionsOk(t, generation + 1)
  {
    hide Named, PromotedIds, Blocked;
    var m := |s.candidates|;
    forall i | m <= i < |t.candidates|
      ensures t.candidates[i].id == i && t.candidates[i].generation == generation
      ensures Named(t.candidates[i].spec) && 6.0 <= t.candidates[i].fitness.score <= 88.0
      ensures i != m + k ==> t.candidates[i].status == Challenger
      ensures t.candidates[i].fitness.score <= batch[k].fitness.score
    {
      var j := i - m;
      assert t.candidates[m + j] == if j == k then t.candidates[m + k] else batch[j];
    }
    assert t.candidates[m + k].fitness == batch[k].fitness;
  }

  // ----- The next population -----

  lemma {:induction false} BredIsOk(parents: seq<Candidate>, length: nat, generation: nat, volatilityLesson: bool)
    requires parents != [] && forall i :: 0 <= i < |parents| ==> Named(parents[i].spec)
    ensures var r := Bred(parents, length, generation, volatilityLesson);
            r.Ok? && PopulationOk(r.value) && |r.value| == if length <= |parents| then |parents| else length
    decreases length
  {
    hide Mutate;
    if length > |parents| {
      BredIsOk(parents, length - 1, generation, volatilityLesson);
      MutationStaysValid(parents[(length - 1) % |parents|].spec, generation, volatilityLesson);
    }
  }

  lemma StepKeepsInv(s: State, request: Request, generation: nat, initial: nat, backtests: Backtests)
    requires Inv(s, request, generation, initial) && s.population != [] && request.populationSize >= 2
    ensures Step(s, generation, request, backtests).Ok?
    ensures Inv(Step(s, generation, request, backtests).value, request, generation + 1, initial)
  {
    hide Named, Ranked, Judged, FitnessScore, CandidatesOk, DecisionsOk, PromotionsOk, ChampionOk, BestAt, Bred, Parents,
         PopulationOk, Evaluated;
    var batch := Evaluated(s.population, |s.candidates|, generation, backtests);
    var k := BestIsFound(s.population, |s.candidates|, generation, backtests);
    JudgedKeeps(s, batch, generation, k);
    ParentsAreNamed(batch, |s.candidates|, generation, k, request.populationSize);
    BredIsOk(Parents(Ranked(batch), request.populationSize), request.populationSize, generation + 1, request.volatilityLesson);
    PopulationIsFree(Judged(s, batch), Step(s, generation, request, backtests).value.population, generation + 1);
    JudgedSizes(s, batch, generation, k);
    SizeGrows(generation, request.populationSize, initial);
  }

  lemma JudgedSizes(s: State, batch: seq<Candidate>, generation: nat, k: nat)
    requires CandidatesOk(s.candidates) && BestAt(batch, |s.candidates|, generation, k) && Ranked(batch)[0] == batch[k]
    requires forall i :: 0 <= i < |s.candidates| ==> s.candidates[i].generation < generation
    ensures |Judged(s, batch).candidates| == |s.candidates| + |batch|
    ensures forall i :: 0 <= i < |Judged(s, batch).candidates| ==> Judged(s, batch).candidates[i].generation < generation + 1
  {
    hide Named, Ranked, Judged, CandidatesOk;
    JudgedCandidates(s, batch, generation, k);
    var t, m := Judged(s, batch), |s.candidates|;
    forall i | 0 <= i < |t.candidates|
      ensures t.candidates[i].generation < generation + 1
    {
      if i < m {
        assert t.candidates[..m][i] == t.candidates[i];
      } else {
        var j := i - m;
        assert t.candidates[m + j] == if j == k then t.candidates[m + k] else batch[j];
      }
    }
  }

  lemma SizeGrows(generation: nat, size: nat, initial: nat)
    ensures (generation + 1 - 1) * size == generation * size
    ensures generation > 0 ==> initial + (generation - 1) * size + size == initial + generation * size
  {
  }

  lemma PopulationIsFree(s: State, population: seq<Entry>, generations: nat)
    ensures var t := s.(population := population);
            && ChampionOk(s) == ChampionOk(t) && DecisionsOk(s) == DecisionsOk(t)
            && PromotionsOk(s, generations) == PromotionsOk(t, generations)
  {
    hide PromotedIds;
  }

  lemma ParentsAreNamed(batch: seq<Candidate>, first: nat, generation: nat, k: nat, size: nat)
    requires BestAt(batch, first, generation, k) && size >= 2
    ensures forall i :: 0 <= i < |Parents(Ranked(batch), size)| ==> Named(Parents(Ranked(batch), size)[i].spec)
    ensures |Parents(Ranked(batch), size)| <= size
  {
    hide Named, Ranked;
    RankedDescends(batch);
    forall i | 0 <= i < |Parents(Ranked(batch), size)|
      ensures Named(Parents(Ranked(batch), size)[i].spec)
    {
      assert Parents(Ranked(batch), size)[i] == Ranked(batch)[i];
    }
  }

  // ----- Whole runs -----

  lemma {:induction false} InitialIsOk(windows: seq<(int, int)>)
    requires Initial(windows).Ok?
    ensures PopulationOk(Initial(windows).value) && |Initial(windows).value| == |windows|
  {
    if windows != [] {
      InitialIsOk(windows[..|windows| - 1]);
    }
  }

  function InitialSize(request: Request): nat {
    if |request.initial| <= request.populationSize then |request.initial| else request.populationSize
  }

  /** Once its initial population is valid and not empty, a run of any length completes and keeps the invariant. */
  lemma {:induction false} RunKeepsInv(request: Request, generations: nat, backtests: Backtests)
    requires Start(request).Ok? && request.initial != [] && request.populationSize >= 2
    ensures Run(request, generations, backtests).Ok?
    ensures Inv(Run(request, generations, backtests).value, request, generations, InitialSize(request))
  {
    hide Inv, Start, Step;
    if generations == 0 {
      StartKeepsInv(request);
    } else {
      RunKeepsInv(request, generations - 1, backtests);
      var s := Run(request, generations - 1, backtests).value;
      PopulationStays(s, request, generations - 1);
      StepKeepsInv(s, request, generations - 1, InitialSize(request), backtests);
    }
  }

  lemma StartKeepsInv(request: Request)
    requires Start(request).Ok? && request.initial != [] && request.populationSize >= 2
    ensures Inv(Start(request).value, request, 0, InitialSize(request))
  {
    hide Initial, Named;
    InitialIsOk(if |request.initial| <= request.populationSize then request.initial
                else request.initial[..request.populationSize]);
    assert PromotedIds([]) == {};
  }

  lemma PopulationStays(s: State, request: Request, generations: nat)
    requires Inv(s, request, generations, InitialSize(request)) && request.initial != [] && request.populationSize >= 2
    ensures s.population != []
  {
    hide CandidatesOk, PopulationOk, ChampionOk, DecisionsOk, PromotionsOk;
  }

  /** A run succeeds exactly when its first members are valid and, unless it has no generation, there is one. */
  lemma RunSucceeds(request: Request, generations: nat, backtests: Backtests)
    requires request.populationSize >= 2
    ensures Run(request, generations, backtests).Ok? <==> Start(request).Ok? && (generations == 0 || request.initial != [])
  {
    if Start(request).Err? {
      assert Run(request, 0, backtests).Err?;
      RunStaysBroken(request, 0, generations, backtests);
    } else if request.initial != [] {
      RunKeepsInv(request, generations, backtests);
    } else if generations > 0 {
      assert Run(request, 0, backtests).Ok?;
      assert Run(request, 1, backtests).Err?;
      RunStaysBroken(request, 1, generations, backtests);
    }
  }

  /**
    After any number of generations: the champion the loop holds is the one the query returns, ahead of every other
    promoted candidate by two; promotions and rejections count the generations, and promotions are at most 42; every
    specification is valid; and the candidates number the initial ones plus a population for each later generation.
   */
  lemma ChampionAgrees(request: Request, generations: nat, backtests: Backtests)
    requires request.populationSize >= 2 && generations > 0 && Run(request, generations, backtests).Ok?
    ensures var s := Run(request, generations, backtests).value;
            && s.champion.Some? && ChampionOf(s.candidates) == s.champion
            && (forall i :: 0 <= i < |s.candidates| && s.candidates[i].status == Promoted && i != s.champion.value ==>
                  s.champion.value < |s.candidates|
                  && s.candidates[i].fitness.score + 2.0 <= s.candidates[s.champion.value].fitness.score)
            && |PromotedIds(s.candidates)| + s.rejected == generations && 1 <= |PromotedIds(s.candidates)| <= 42
            && (forall i :: 0 <= i < |s.candidates| ==> s.candidates[i].spec.Valid())
            && |s.candidates| == InitialSize(request) + (generations - 1) * request.populationSize
  {
    RunSucceeds(request, generations, backtests);
    RunKeepsInv(request, generations, backtests);
    hide Run, PromotedIds, DecisionsOk;
    var s := Run(request, generations, backtests).value;
    ChampionIsBestPromoted(s.candidates);
    assert s.champion.value in PromotedIds(s.candidates) by { PromotedIsListed(s.candidates, s.champion.value); }
  }

  lemma PromotedIsListed(cs: seq<Candidate>, c: nat)
    requires c < |cs| && cs[c].status == Promoted
    ensures c in PromotedIds(cs)
  {
  }

  /** One decision falls on each generation's best, and no best that is not blocked ends up ahead of the champion by two. */
  lemma NoBestIsMissed(request: Request, generations: nat, backtests: Backtests)
    requires request.populationSize >= 2 && generations > 0 && Run(request, generations, backtests).Ok?
    ensures var s := Run(request, generations, backtests).value;
            && s.champion.Some? && s.champion.value < |s.candidates|
            && forall i :: 0 <= i < |s.candidates| && s.candidates[i].status != Challenger ==>
                 && (forall j :: 0 <= j < |s.candidates| && s.candidates[j].generation == s.candidates[i].generation ==>
                       s.candidates[j].fitness.score <= s.candidates[i].fitness.score)
                 && (!Blocked(s.candidates[i].fitness) ==>
                       s.candidates[i].fitness.score < s.candidates[s.champion.value].fitness.score + 2.0)
  {
    RunSucceeds(request, generations, backtests);
    RunKeepsInv(request, generations, backtests);
    hide Run, PromotedIds, CandidatesOk, SizesOk, Blocked;
  }
}
