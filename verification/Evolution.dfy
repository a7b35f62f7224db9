/** Champion and challenger: the generation loop, its fitness scores, its mutations, and the champion query. */
module Evolution {
  import opened Common

  // ----- Specifications -----

  /** A moving-average specification; windows and fraction may be absent from their dictionaries. */
  datatype Spec = Spec(lookback: int, short: Option<int>, long: Option<int>, fraction: Option<real>,
                       otherConditions: nat, otherParameters: nat,
                       volatilityTarget: bool, volatilityFilter: bool, trendFilter: bool)
  {
    function ShortWindow(): int { short.GetOr(lookback) }

    function LongWindow(): int { long.GetOr(if 2 * lookback >= 3 then 2 * lookback else 3) }

    predicate Valid() {
      && 2 <= lookback <= 252
      && 2 <= ShortWindow() < LongWindow() <= 252
      && 0.0 < fraction.GetOr(1.0) <= 1.0
    }

    function Complexity(): real {
      var conditions := otherConditions + (if short.Some? then 1 else 0) + (if long.Some? then 1 else 0);
      var parameters := otherParameters + (if fraction.Some? then 1 else 0) + (if volatilityTarget then 1 else 0);
      var filters := (if volatilityFilter then 1 else 0) + (if trendFilter then 1 else 0);
      conditions as real + parameters as real * 0.5 + (2 + filters) as real + filters as real
    }
  }

  datatype Error = InvalidSpecification | MissingWindow | EmptyPopulation

  function Validated(spec: Spec): Result<Spec, Error> { if spec.Valid() then Ok(spec) else Err(InvalidSpecification) }

  /** Both windows named, one signal each for entry and exit, and the default sizing, risk and execution entries. */
  function MovingAverage(short: int, long: int): Result<Spec, Error> {
    Validated(Spec(short, Some(short), Some(long), Some(1.0), 2, 4, false, false, false))
  }

  /** A volatility lesson switches sizing and filter on; otherwise the short window moves by the generation's step. */
  function Mutate(spec: Spec, generation: nat, volatilityLesson: bool): Result<Spec, Error> {
    if volatilityLesson then Validated(spec.(volatilityTarget := true, volatilityFilter := true))
    else if spec.short == None || spec.long == None then Err(MissingWindow)
    else
      var short, long, step := spec.short.value, spec.long.value, 1 + generation % 3;
      var moved := if generation % 2 == 0 then MaxInt(2, short - step) else MinInt(long - 1, short + step);
      Validated(spec.(lookback := moved, short := Some(moved)))
  }

  /** Mutating a valid specification fails only for want of a named window, and what it gives is valid, named alike. */
  lemma MutationStaysValid(spec: Spec, generation: nat, volatilityLesson: bool)
    requires spec.Valid()
    ensures var r := Mutate(spec, generation, volatilityLesson);
            && (r.Ok? <==> volatilityLesson || (spec.short.Some? && spec.long.Some?))
            && (r.Ok? ==>
                  && r.value.Valid() && r.value.LongWindow() == spec.LongWindow()
                  && r.value.short.Some? == spec.short.Some? && r.value.long == spec.long
                  && -3 <= r.value.ShortWindow() - spec.ShortWindow() <= 3 && r.value.fraction == spec.fraction
                  && (generation % 2 == 0 ==> r.value.ShortWindow() <= spec.ShortWindow())
                  && (generation % 2 == 1 ==> r.value.ShortWindow() >= spec.ShortWindow())
                  && (volatilityLesson ==> r.value.volatilityTarget && r.value.volatilityFilter)
                  && (!volatilityLesson ==> r.value.lookback == r.value.ShortWindow()))
  {
  }

  // ----- Fitness -----

  datatype Metrics = Metrics(sharpe: real, sortino: real, maxDrawdown: real, turnover: real, trades: real,
                             robustness: real, flags: set<string>)

  datatype Fitness = Fitness(score: real, flags: set<string>)

  function Clamp(x: real): (r: real)
    ensures 0.0 <= r <= 1.0 && (0.0 <= x <= 1.0 ==> r == x)
  {
    MaxReal(0.0, MinReal(1.0, x))
  }

  function FitnessScore(m: Metrics, consistency: real, riskFlags: set<string>, spec: Spec): Fitness {
    Fitness(
      100.0 * (Clamp((m.sharpe + 2.0) / 4.0) * 0.18
               + Clamp((m.sortino + 2.0) / 4.0) * 0.1
               + Clamp(1.0 - AbsReal(m.maxDrawdown)) * 0.14
               + Clamp(consistency) * 0.12
               + Clamp(m.robustness / 100.0) * 0.18
               + Clamp(1.0 - m.turnover / 10.0) * 0.08
               + Clamp(m.trades / 10.0) * 0.08
               + Clamp(1.0 - spec.Complexity() / 20.0) * 0.06
               + Clamp(1.0 - |riskFlags| as real * 0.12) * 0.06),
      riskFlags + m.flags)
  }

  /** Scores lie in [0, 100]; without walk-forward results or risk flags, as in an evolution run, in [6, 88]. */
  lemma ScoreRange(m: Metrics, consistency: real, riskFlags: set<string>, spec: Spec)
    ensures 0.0 <= FitnessScore(m, consistency, riskFlags, spec).score <= 100.0
    ensures 6.0 <= FitnessScore(m, 0.0, {}, spec).score <= 88.0
    ensures FitnessScore(m, 0.0, {}, spec).flags == m.flags
  {
    hide Clamp, AbsReal;
    var none: set<string> := {};
    assert |none| == 0;
    assert Clamp(0.0) == 0.0 && Clamp(1.0 - 0.0) == 1.0;
  }

  lemma ClampMonotone(x: real, y: real)
    requires x <= y
    ensures Clamp(x) <= Clamp(y)
  {
  }

  /** No worse a ratio, drawdown, turnover, trade count or robustness never scores less, whatever the specification. */
  lemma BetterNeverScoresLess(m: Metrics, n: Metrics, consistency: real, riskFlags: set<string>, spec: Spec)
    requires m.sharpe <= n.sharpe && m.sortino <= n.sortino && AbsReal(m.maxDrawdown) >= AbsReal(n.maxDrawdown)
    requires m.turnover >= n.turnover && m.trades <= n.trades && m.robustness <= n.robustness
    ensures FitnessScore(m, consistency, riskFlags, spec).score <= FitnessScore(n, consistency, riskFlags, spec).score
  {
    hide Clamp, AbsReal;
    ClampMonotone((m.sharpe + 2.0) / 4.0, (n.sharpe + 2.0) / 4.0);
    ClampMonotone((m.sortino + 2.0) / 4.0, (n.sortino + 2.0) / 4.0);
    ClampMonotone(1.0 - AbsReal(m.maxDrawdown), 1.0 - AbsReal(n.maxDrawdown));
    ClampMonotone(m.robustness / 100.0, n.robustness / 100.0);
    ClampMonotone(1.0 - m.turnover / 10.0, 1.0 - n.turnover / 10.0);
    ClampMonotone(m.trades / 10.0, n.trades / 10.0);
  }

  datatype Decision = Promote | Reject

  const BLOCKING := {"REGIME_DEPENDENCE_HIGH", "HIGH_VOL_FAILURE", "SIDEWAYS_FAILURE", "OVERFITTING_HIGH"}

  predicate Blocked(f: Fitness) { f.flags * BLOCKING != {} }

  function Decide(champion: Option<Fitness>, challenger: Fitness): Decision {
    if champion == None then Promote
    else if Blocked(challenger) then Reject
    else if challenger.score >= champion.value.score + 2.0 then Promote
    else Reject
  }

  // ----- Candidates -----

  datatype Status = Challenger | Promoted | Rejected

  datatype Candidate = Candidate(id: nat, generation: nat, parents: seq<nat>, spec: Spec, fitness: Fitness, status: Status)

  datatype Entry = Entry(spec: Spec, parents: seq<nat>)

  /** What the backtest of a candidate reports, by its number and specification. */
  type Backtests = (nat, Spec) -> Metrics

  /** Inserts after everything that scores at least as much. */
  function Insert(sorted: seq<Candidate>, c: Candidate): (r: seq<Candidate>)
    ensures multiset(r) == multiset(sorted) + multiset{c}
    ensures |r| == |sorted| + 1
  {
    if sorted == [] || sorted[|sorted| - 1].fitness.score >= c.fitness.score then sorted + [c]
    else
      assert sorted == sorted[..|sorted| - 1] + [sorted[|sorted| - 1]];
      Insert(sorted[..|sorted| - 1], c) + [sorted[|sorted| - 1]]
  }

  /** By score, highest first; ties keep their order. */
  function Ranked(cs: seq<Candidate>): (r: seq<Candidate>)
    ensures multiset(r) == multiset(cs) && |r| == |cs|
  {
    if cs == [] then []
    else
      assert cs == cs[..|cs| - 1] + [cs[|cs| - 1]];
      Insert(Ranked(cs[..|cs| - 1]), cs[|cs| - 1])
  }

  predicate Descending(cs: seq<Candidate>) {
    forall i, j :: 0 <= i < j < |cs| ==> cs[i].fitness.score >= cs[j].fitness.score
  }

  lemma {:induction false} InsertDescends(sorted: seq<Candidate>, c: Candidate)
    requires Descending(sorted)
    ensures Descending(Insert(sorted, c))
  {
    if sorted != [] && sorted[|sorted| - 1].fitness.score < c.fitness.score {
      var n := |sorted| - 1;
      InsertDescends(sorted[..n], c);
      var r := Insert(sorted[..n], c);
      hide Insert;
      forall i | 0 <= i < |r|
        ensures r[i].fitness.score >= sorted[n].fitness.score
      {
        WasThere(sorted[..n], c, r[i]);
      }
    }
  }

  /** Inserting adds one candidate and no other. */
  lemma WasThere(sorted: seq<Candidate>, c: Candidate, x: Candidate)
    requires x in Insert(sorted, c)
    ensures x == c || exists k :: 0 <= k < |sorted| && sorted[k] == x
  {
    hide Insert;
    assert x in multiset(Insert(sorted, c));
  }

  lemma {:induction false} RankedDescends(cs: seq<Candidate>)
    ensures Descending(Ranked(cs))
    ensures forall i :: 0 <= i < |cs| ==> Ranked(cs)[i] in cs
    ensures cs != [] ==> forall i :: 0 <= i < |cs| ==> Ranked(cs)[0].fitness.score >= cs[i].fitness.score
  {
    if cs != [] {
      RankedDescends(cs[..|cs| - 1]);
      InsertDescends(Ranked(cs[..|cs| - 1]), cs[|cs| - 1]);
    }
    forall i | 0 <= i < |cs|
      ensures Ranked(cs)[i] in cs
    {
      assert Ranked(cs)[i] in multiset(Ranked(cs));
    }
    forall i | 0 <= i < |cs|
      ensures Ranked(cs)[0].fitness.score >= cs[i].fitness.score
    {
      assert cs[i] in multiset(Ranked(cs));
    }
  }

  // ----- The generation loop -----

  datatype Request = Request(initial: seq<(int, int)>, generations: nat, populationSize: nat, volatilityLesson: bool)

  datatype State = State(candidates: seq<Candidate>, population: seq<Entry>, champion: Option<nat>, rejected: nat)

  function Initial(windows: seq<(int, int)>): Result<seq<Entry>, Error>
  {
    if windows == [] then Ok([])
    else
      var front := Initial(windows[..|windows| - 1]);
      if front.Err? then front
      else
        var last := MovingAverage(windows[|windows| - 1].0, windows[|windows| - 1].1);
        if last.Err? then Err(last.error) else Ok(front.value + [Entry(last.value, [])])
  }

  function Evaluated(population: seq<Entry>, first: nat, generation: nat, backtests: Backtests): (r: seq<Candidate>)
    ensures |r| == |population|
    ensures forall i :: 0 <= i < |r| ==>
              && r[i].id == first + i && r[i].generation == generation && r[i].status == Challenger
              && r[i].spec == population[i].spec && r[i].parents == population[i].parents
              && r[i].fitness == FitnessScore(backtests(first + i, population[i].spec), 0.0, {}, population[i].spec)
  {
    seq(|population|, i requires 0 <= i < |population| =>
      var spec := population[i].spec;
      Candidate(first + i, generation, population[i].parents, spec,
                FitnessScore(backtests(first + i, spec), 0.0, {}, spec), Challenger))
  }

  function Parents(ranked: seq<Candidate>, size: nat): (r: seq<Candidate>)
    requires ranked != []
    ensures 1 <= |r| <= |ranked| && r <= ranked && (size >= 1 ==> |r| <= size)
  {
    ranked[..MaxInt(1, MinInt(|ranked|, size / 2))]
  }

  function Survivors(parents: seq<Candidate>): (r: seq<Entry>)
    ensures |r| == |parents|
    ensures forall i :: 0 <= i < |r| ==> r[i] == Entry(parents[i].spec, parents[i].parents)
  {
    seq(|parents|, i requires 0 <= i < |parents| => Entry(parents[i].spec, parents[i].parents))
  }

  /** The survivors, then mutations of the parents in turn, up to a length. */
  function Bred(parents: seq<Candidate>, length: nat, generation: nat, volatilityLesson: bool): Result<seq<Entry>, Error>
    requires parents != []
    decreases length
  {
    if length <= |parents| then Ok(Survivors(parents))
    else
      var front := Bred(parents, length - 1, generation, volatilityLesson);
      if front.Err? then front
      else
        var parent := parents[(length - 1) % |parents|];
        var mutated := Mutate(parent.spec, generation, volatilityLesson);
        if mutated.Err? then Err(mutated.error) else Ok(front.value + [Entry(mutated.value, [parent.id])])
  }

  function ChampionFitness(s: State): Option<Fitness> {
    if s.champion.Some? && s.champion.value < |s.candidates| then Some(s.candidates[s.champion.value].fitness) else None
  }

  function Judged(s: State, batch: seq<Candidate>): State
    requires batch != []
  {
    var best := Ranked(batch)[0];
    var promote := Decide(ChampionFitness(s), best.fitness) == Promote;
    var marked := Marked(batch, best.id, if promote then Promoted else Rejected);
    State(s.candidates + marked, s.population, if promote then Some(best.id) else s.champion,
          if promote then s.rejected else s.rejected + 1)
  }

  /** The batch with one candidate's status set. */
  function Marked(batch: seq<Candidate>, id: nat, status: Status): (r: seq<Candidate>)
    ensures |r| == |batch|
    ensures forall i :: 0 <= i < |r| ==> r[i] == if batch[i].id == id then batch[i].(status := status) else batch[i]
  {
    seq(|batch|, i requires 0 <= i < |batch| => if batch[i].id == id then batch[i].(status := status) else batch[i])
  }

  function Step(s: State, generation: nat, request: Request, backtests: Backtests): Result<State, Error> {
    if s.population == [] then Err(EmptyPopulation)
    else
      var batch := Evaluated(s.population, |s.candidates|, generation, backtests);
      var judged := Judged(s, batch);
      var bred := Bred(Parents(Ranked(batch), request.populationSize), request.populationSize, generation + 1,
                       request.volatilityLesson);
      if bred.Err? then Err(bred.error) else Ok(judged.(population := bred.value))
  }

  function Start(request: Request): Result<State, Error> {
    var windows := if |request.initial| <= request.populationSize then request.initial
                   else request.initial[..request.populationSize];
    var population := Initial(windows);
    if population.Err? then Err(population.error) else Ok(State([], population.value, None, 0))
  }

  function Run(request: Request, generations: nat, backtests: Backtests): Result<State, Error>
  {
    if generations == 0 then Start(request)
    else
      var before := Run(request, generations - 1, backtests);
      if before.Err? then before else Step(before.value, generations - 1, request, backtests)
  }

  /** The loop that fills the next population. */
  method Breed(parents: seq<Candidate>, size: nat, generation: nat, volatilityLesson: bool)
    returns (r: Result<seq<Entry>, Error>)
    requires 1 <= |parents| <= size
    ensures r == Bred(parents, size, generation, volatilityLesson)
  {
    hide Mutate;
    var population := Survivors(parents);
    while |population| < size
      invariant |parents| <= |population| <= size
      invariant Bred(parents, |population|, generation, volatilityLesson) == Ok(population)
    {
      var parent := parents[|population| % |parents|];
      var mutation := Mutate(parent.spec, generation, volatilityLesson);
      if mutation.Err? {
        BredStaysBroken(parents, |population| + 1, size, generation, volatilityLesson);
        return Err(mutation.error);
      }
      population := population + [Entry(mutation.value, [parent.id])];
    }
    return Ok(population);
  }

  method CreateRun(request: Request, backtests: Backtests) returns (r: Result<State, Error>)
    requires request.populationSize >= 2
    ensures r == Run(request, request.generations, backtests)
  {
    hide Ranked, Decide, FitnessScore, Initial, Bred, Marked, Evaluated;
    var start := Start(request);
    if start.Err? {
      RunStaysBroken(request, 0, request.generations, backtests);
      return start;
    }
    var candidates, population := [], start.value.population;
    var champion: Option<nat>, rejected: nat := None, 0;
    for generation := 0 to request.generations
      invariant Run(request, generation, backtests) == Ok(State(candidates, population, champion, rejected))
    {
      ghost var s := State(candidates, population, champion, rejected);
      if population == [] {
        RunStaysBroken(request, generation + 1, request.generations, backtests);
        return Err(EmptyPopulation);
      }
      var batch := Evaluated(population, |candidates|, generation, backtests);
      var ranked := Ranked(batch);
      var best := ranked[0];
      var held := if champion.Some? && champion.value < |candidates| then Some(candidates[champion.value].fitness)
                  else None;
      if Decide(held, best.fitness) == Promote {
        candidates := candidates + Marked(batch, best.id, Promoted);
        champion := Some(best.id);
      } else {
        candidates := candidates + Marked(batch, best.id, Rejected);
        rejected := rejected + 1;
      }
      assert State(candidates, s.population, champion, rejected) == Judged(s, batch);
      var bred := Breed(Parents(ranked, request.populationSize), request.populationSize, generation + 1,
                        request.volatilityLesson);
      if bred.Err? {
        RunStaysBroken(request, generation + 1, request.generations, backtests);
        return Err(bred.error);
      }
      population := bred.value;
    }
    return Ok(State(candidates, population, champion, rejected));
  }

  lemma {:induction false} RunStaysBroken(request: Request, n: nat, m: nat, backtests: Backtests)
    requires n <= m && Run(request, n, backtests).Err?
    ensures Run(request, m, backtests) == Run(request, n, backtests)
    decreases m
  {
    hide Step;
    if n < m {
      RunStaysBroken(request, n, m - 1, backtests);
    }
  }

  lemma {:induction false} BredStaysBroken(parents: seq<Candidate>, n: nat, m: nat, generation: nat, volatilityLesson: bool)
    requires parents != [] && n <= m && Bred(parents, n, generation, volatilityLesson).Err?
    ensures Bred(parents, m, generation, volatilityLesson) == Bred(parents, n, generation, volatilityLesson)
    decreases m
  {
    hide Mutate;
    if n < m {
      BredStaysBroken(parents, n, m - 1, generation, volatilityLesson);
    }
  }
}
