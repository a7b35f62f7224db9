/** What a fitness score is made of, when a challenger is promoted, and how a population is bred. */
module EvolutionLaws {
  import opened Common
  import opened Evolution

  // ----- Scores -----

  /** Nothing up to one end, everything from the other on, and evenly in between; the ends may be in either order. */
  function Graded(x: real, none: real, all: real): real
    requires none != all
  {
    var part := (x - none) / (all - none);
    if part <= 0.0 then 0.0 else if part >= 1.0 then 1.0 else part
  }

  /** The hundred points of a score: what each is given for, and between which values. */
  function Points(m: Metrics, consistency: real, riskFlags: nat, complexity: real): real {
    18.0 * Graded(m.sharpe, -2.0, 2.0)
    + 10.0 * Graded(m.sortino, -2.0, 2.0)
    + 14.0 * Graded(AbsReal(m.maxDrawdown), 1.0, 0.0)
    + 12.0 * Graded(consistency, 0.0, 1.0)
    + 18.0 * Graded(m.robustness, 0.0, 100.0)
    + 8.0 * Graded(m.turnover, 10.0, 0.0)
    + 8.0 * Graded(m.trades, 0.0, 10.0)
    + 6.0 * Graded(complexity, 20.0, 0.0)
    + 6.0 * Graded(riskFlags as real, 25.0 / 3.0, 0.0)
  }

  lemma ClampIsGraded(x: real, none: real, all: real, part: real)
    requires none != all && part == (x - none) / (all - none)
    ensures Clamp(part) == Graded(x, none, all)
  {
  }

  /** A score is its points, and its flags are the risk flags and the regime's. */
  lemma ScoreIsPoints(m: Metrics, consistency: real, riskFlags: set<string>, spec: Spec)
    ensures FitnessScore(m, consistency, riskFlags, spec).score == Points(m, consistency, |riskFlags|, spec.Complexity())
    ensures FitnessScore(m, consistency, riskFlags, spec).flags == riskFlags + m.flags
  {
    hide Clamp, Graded, AbsReal;
    ClampIsGraded(m.sharpe, -2.0, 2.0, (m.sharpe + 2.0) / 4.0);
    ClampIsGraded(m.sortino, -2.0, 2.0, (m.sortino + 2.0) / 4.0);
    ClampIsGraded(AbsReal(m.maxDrawdown), 1.0, 0.0, 1.0 - AbsReal(m.maxDrawdown));
    ClampIsGraded(consistency, 0.0, 1.0, consistency);
    ClampIsGraded(m.robustness, 0.0, 100.0, m.robustness / 100.0);
    ClampIsGraded(m.turnover, 10.0, 0.0, 1.0 - m.turnover / 10.0);
    ClampIsGraded(m.trades, 0.0, 10.0, m.trades / 10.0);
    ClampIsGraded(spec.Complexity(), 20.0, 0.0, 1.0 - spec.Complexity() / 20.0);
    ClampIsGraded(|riskFlags| as real, 25.0 / 3.0, 0.0, 1.0 - |riskFlags| as real * 0.12);
  }

  /** Complexity: one for each condition, a half for each parameter, one for each signal, and two for each filter. */
  lemma ComplexityAdds(spec: Spec)
    ensures spec.Complexity()
            == spec.otherConditions as real + Count(spec.short.Some?) + Count(spec.long.Some?)
               + (spec.otherParameters as real + Count(spec.fraction.Some?) + Count(spec.volatilityTarget)) / 2.0
               + 2.0 + 2.0 * Count(spec.volatilityFilter) + 2.0 * Count(spec.trendFilter)
  {
  }

  function Count(b: bool): real { if b then 1.0 else 0.0 }

  // ----- Specifications -----

  /** The windows asked for are accepted exactly when both are at least two, the long one is longer, and within a year. */
  lemma InitialMember(short: int, long: int)
    ensures var r := MovingAverage(short, long);
            && (r.Ok? <==> 2 <= short && short < long && long <= 252)
            && (r.Ok? ==>
                  && r.value.short == Some(short) && r.value.long == Some(long) && r.value.lookback == short
                  && r.value.fraction == Some(1.0) && r.value.Complexity() == 8.5
                  && !r.value.volatilityTarget && !r.value.volatilityFilter && !r.value.trendFilter)
  {
  }

  /** Without named windows the short one is the lookback and the long one twice that: valid up to half a year. */
  lemma DefaultWindows(spec: Spec)
    requires spec.short == None && spec.long == None && spec.fraction == None
    ensures spec.Valid() <==> 2 <= spec.lookback <= 126
    ensures spec.Valid() ==> spec.ShortWindow() == spec.lookback && spec.LongWindow() == spec.lookback + spec.lookback
    ensures spec.lookback == 1 ==> spec.LongWindow() == 3
  {
  }

  /** With both named, the lookback has its own bounds, and the fraction has to be a positive part. */
  lemma NamedWindows(spec: Spec, short: int, long: int, fraction: real)
    requires spec.short == Some(short) && spec.long == Some(long) && spec.fraction == Some(fraction)
    ensures spec.Valid() <==>
            && spec.lookback > 1 && spec.lookback < 253
            && short > 1 && short < long && long < 253 && fraction > 0.0 && !(fraction > 1.0)
  {
  }

  // ----- Promotion -----

  /** The first is always promoted; after it only one without a blocking flag that scores two points more. */
  lemma PromotedWhen(champion: Option<Fitness>, challenger: Fitness)
    ensures Decide(champion, challenger) == Promote <==>
            || champion == None
            || (&& "REGIME_DEPENDENCE_HIGH" !in challenger.flags && "HIGH_VOL_FAILURE" !in challenger.flags
                && "SIDEWAYS_FAILURE" !in challenger.flags && "OVERFITTING_HIGH" !in challenger.flags
                && challenger.score - champion.value.score >= 2.0)
  {
    var blocking := challenger.flags * BLOCKING;
    if "REGIME_DEPENDENCE_HIGH" in challenger.flags { assert "REGIME_DEPENDENCE_HIGH" in blocking; }
    if "HIGH_VOL_FAILURE" in challenger.flags { assert "HIGH_VOL_FAILURE" in blocking; }
    if "SIDEWAYS_FAILURE" in challenger.flags { assert "SIDEWAYS_FAILURE" in blocking; }
    if "OVERFITTING_HIGH" in challenger.flags { assert "OVERFITTING_HIGH" in blocking; }
    if blocking != {} {
      var flag :| flag in blocking;
      assert flag in BLOCKING;
    }
  }

  /** Ties keep the order of evaluation. */
  lemma {:induction false} InsertKeepsTies(sorted: seq<Candidate>, c: Candidate)
    requires Descending(sorted) && Steady(sorted) && forall i :: 0 <= i < |sorted| ==> sorted[i].id < c.id
    ensures Steady(Insert(sorted, c))
  {
    InsertDescends(sorted, c);
    if sorted != [] && sorted[|sorted| - 1].fitness.score < c.fitness.score {
      var n := |sorted| - 1;
      InsertKeepsTies(sorted[..n], c);
      InsertDescends(sorted[..n], c);
      var r := Insert(sorted[..n], c);
      hide Insert;
      forall i | 0 <= i < n + 1 && r[i].fitness.score == sorted[n].fitness.score
        ensures r[i].id < sorted[n].id
      {
        WasThere(sorted[..n], c, r[i]);
      }
    }
  }

  /** Among equal scores the earlier number comes first. */
  predicate Steady(cs: seq<Candidate>) {
    forall i, j :: 0 <= i < j < |cs| && cs[i].fitness.score == cs[j].fitness.score ==> cs[i].id < cs[j].id
  }

  lemma {:induction false} RankingIsSteady(cs: seq<Candidate>)
    requires forall i, j :: 0 <= i < j < |cs| ==> cs[i].id < cs[j].id
    ensures Descending(Ranked(cs)) && Steady(Ranked(cs))
  {
    RankedDescends(cs);
    if cs != [] {
      var front, c := cs[..|cs| - 1], cs[|cs| - 1];
      RankingIsSteady(front);
      RankedDescends(front);
      forall i | 0 <= i < |front|
        ensures Ranked(front)[i].id < c.id
      {
        assert Ranked(front)[i] in front;
      }
      InsertKeepsTies(Ranked(front), c);
    }
  }

  // ----- Breeding -----

  /** How far the short window moves in a generation: the steps repeat every six. */
  function Stride(generation: nat): int {
    match generation % 6
    case 0 => -1
    case 1 => 2
    case 2 => -3
    case 3 => 1
    case 4 => -2
    case _ => 3
  }

  lemma StrideIs(generation: nat)
    ensures Stride(generation) == (if generation % 2 == 0 then -(1 + generation % 3) else 1 + generation % 3)
  {
    var q, r := generation / 6, generation % 6;
    assert generation == 6 * q + r;
    assert generation % 2 == r % 2 && generation % 3 == r % 3 by { Remainders(q, r); }
  }

  lemma Remainders(q: nat, r: nat)
    ensures (6 * q + r) % 2 == r % 2 && (6 * q + r) % 3 == r % 3
  {
    Multiples(2, 3 * q, r);
    Multiples(3, 2 * q, r);
  }

  lemma Multiples(k: nat, q: nat, r: nat)
    requires k == 2 || k == 3
    ensures (k * q + r) % k == r % k
  {
    if k == 2 {
      assert (2 * q + r) % 2 == r % 2;
    } else {
      assert (3 * q + r) % 3 == r % 3;
    }
  }

  /** Without a volatility lesson the short window moves by the stride, but never below two nor up to the long one. */
  lemma MutationMoves(spec: Spec, generation: nat)
    requires spec.Valid() && spec.short.Some? && spec.long.Some?
    ensures var r, wanted := Mutate(spec, generation, false), spec.short.value + Stride(generation);
            && r.Ok? && r.value == spec.(short := r.value.short, lookback := r.value.lookback)
            && r.value.short == Some(r.value.lookback)
            && r.value.lookback == if wanted < 2 then 2 else if wanted >= spec.long.value then spec.long.value - 1 else wanted
  {
    StrideIs(generation);
  }

  /** With one, sizing targets volatility and the filter is on, and nothing else changes. */
  lemma LessonSwitches(spec: Spec, generation: nat)
    requires spec.Valid()
    ensures var r := Mutate(spec, generation, true);
            r.Ok? && r.value == spec.(volatilityTarget := true, volatilityFilter := true)
  {
  }

  /**
    The next population: the parents as they were, then children of the parents in turn, each mutated for the coming
    generation and naming its parent.
   */
  lemma {:induction false} PopulationIsBred(parents: seq<Candidate>, length: nat, generation: nat, lesson: bool)
    requires parents != [] && Bred(parents, length, generation, lesson).Ok?
    ensures var population := Bred(parents, length, generation, lesson).value;
            && |population| == MaxInt(length, |parents|)
            && (forall i :: 0 <= i < |parents| ==> population[i] == Entry(parents[i].spec, parents[i].parents))
            && forall i :: |parents| <= i < |population| ==>
                 var parent := parents[i % |parents|];
                 && Mutate(parent.spec, generation, lesson) == Ok(population[i].spec)
                 && population[i].parents == [parent.id]
    decreases length
  {
    hide Mutate;
    if length > |parents| {
      PopulationIsBred(parents, length - 1, generation, lesson);
    }
  }

  /** The parents are the best half of the population asked for, at least one, at most all. */
  lemma ParentsAreBest(ranked: seq<Candidate>, size: nat)
    requires ranked != []
    ensures var parents := Parents(ranked, size);
            && parents <= ranked && |parents| >= 1
            && (|parents| > 1 ==> 2 * |parents| <= size)
            && (|parents| < |ranked| ==> 2 * |parents| + 2 > size)
  {
  }
}
