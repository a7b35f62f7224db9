/**
  The recorded data policy, that weights at a row use only returns strictly before it, against the whole construction:
  the initial weights are allocated from every row.
 */
module PortfolioPolicy {
  import opened Common
  import opened Rebalance
  import CorrelationStress
  import opened PolicyColumns

  /** Risk parity, an iteration over the covariance, is not part of this model. */
  datatype Allocation = EqualWeight | InverseRisk

  function Unscaled(matrix: seq<seq<real>>, columns: nat, allocation: Allocation, tools: Tools): (r: seq<real>)
    requires IsMatrix(matrix, columns)
    ensures |r| == columns && forall j :: 0 <= j < columns ==> r[j] > 0.0
  {
    if allocation == EqualWeight || |matrix| <= 1 then seq(columns, _ => 1.0)
    else InverseDeviations(matrix, columns, tools)
  }

  /** The initial weights, from the whole matrix. */
  function Allocate(matrix: seq<seq<real>>, columns: nat, allocation: Allocation, tools: Tools): (w: seq<real>)
    requires IsMatrix(matrix, columns) && columns > 0
    ensures |w| == columns && Simplex(w)
  {
    var raw := Unscaled(matrix, columns, allocation, tools);
    PositiveSum(raw);
    ScaledIsSimplex(raw);
    Scaled(raw)
  }

  /** The weights in which a row's contributions are taken. */
  function WeightsAt(dates: seq<string>, matrix: seq<seq<real>>, initial: seq<real>, def: Definition, tools: Tools, k: nat)
    : (w: seq<real>)
    requires Runs(dates, matrix, initial, def) && k < |dates|
    ensures |w| == |initial|
  {
    Run(dates, matrix, initial, def, tools, k + 1).weights
  }

  // ----- How long initial weights last -----

  predicate UnderCap(turnover: real, def: Definition) { def.maxTurnover.Some? ==> turnover <= def.maxTurnover.value }

  /** A rebalance happens at this row and is accepted. */
  predicate Accepts(dates: seq<string>, matrix: seq<seq<real>>, initial: seq<real>, def: Definition, tools: Tools, k: nat)
    requires Runs(dates, matrix, initial, def) && k < |dates|
  {
    var s := Run(dates, matrix, initial, def, tools, k);
    Triggered(dates, k, def, tools)
    && UnderCap(Turnover(DynamicWeights(matrix[..k], s.weights, def, tools), s.previous), def)
  }

  lemma {:induction false} NoTurnover(u: seq<real>, v: seq<real>)
    requires |u| == |v|
    ensures u == v ==> Turnover(u, v) == 0.0
    ensures Turnover(u, v) >= 0.0
  {
    SumNonNegative(Gaps(u, v));
    if u == v {
      var gaps := Gaps(u, v);
      forall j | 0 <= j < |gaps|
        ensures gaps[j] == 2.0 * gaps[j]
      {
        assert gaps[j] == AbsReal(u[j] - v[j]) == 0.0;
      }
      SumScale(gaps, gaps, 2.0);
    }
  }

  lemma RowWeights(dates: seq<string>, matrix: seq<seq<real>>, initial: seq<real>, def: Definition, tools: Tools, k: nat)
    requires Runs(dates, matrix, initial, def) && k < |dates| && Simplex(initial)
    ensures var s := Run(dates, matrix, initial, def, tools, k);
            && s.previous == s.weights
            && WeightsAt(dates, matrix, initial, def, tools, k)
               == if Accepts(dates, matrix, initial, def, tools, k)
                  then DynamicWeights(matrix[..k], s.weights, def, tools) else s.weights
  {
    hide Simplex, Triggered, DynamicWeights, Turnover, Contributions;
    WeightsAreAccepted(dates, matrix, initial, def, tools, k);
  }

  /** Two sets of weights after one row of the same history: they meet when both accept, and never part again. */
  lemma OneRow(dates: seq<string>, other: seq<string>, matrix: seq<seq<real>>, changed: seq<seq<real>>,
               u: seq<real>, v: seq<real>, def: Definition, tools: Tools, k: nat)
    requires Runs(dates, matrix, u, def) && Runs(other, changed, v, def) && |u| == |v| && Simplex(u) && Simplex(v)
    requires k < |dates| && k < |other| && dates[..k + 1] == other[..k + 1] && matrix[..k] == changed[..k]
    ensures var mine, theirs := Run(dates, matrix, u, def, tools, k).weights, Run(other, changed, v, def, tools, k).weights;
            WeightsAt(dates, matrix, u, def, tools, k) == WeightsAt(other, changed, v, def, tools, k) <==>
            mine == theirs || (def.dynamics != Static && Accepts(dates, matrix, u, def, tools, k)
                               && Accepts(other, changed, v, def, tools, k))
    ensures var mine, theirs := Run(dates, matrix, u, def, tools, k).weights, Run(other, changed, v, def, tools, k).weights;
            mine == theirs ==>
              Accepts(dates, matrix, u, def, tools, k) == Accepts(other, changed, v, def, tools, k)
  {
    hide Simplex, Turnover, Run, RawWeights, ShouldRebalance;
    RowWeights(dates, matrix, u, def, tools, k);
    RowWeights(other, changed, v, def, tools, k);
    SameTrigger(dates, other, def, tools, k);
    var mine, theirs := Run(dates, matrix, u, def, tools, k).weights, Run(other, changed, v, def, tools, k).weights;
    if Triggered(dates, k, def, tools) {
      var x, y := DynamicWeights(matrix[..k], mine, def, tools), DynamicWeights(changed[..k], theirs, def, tools);
      NoTurnover(x, mine);
      NoTurnover(y, theirs);
      assert def.dynamics != Static ==> x == y;
    }
  }

  /** Both simulations accept new weights at one row, up to row k. */
  ghost predicate Meet(dates: seq<string>, other: seq<string>, matrix: seq<seq<real>>, changed: seq<seq<real>>,
                       u: seq<real>, v: seq<real>, def: Definition, tools: Tools, k: nat)
    requires Runs(dates, matrix, u, def) && Runs(other, changed, v, def) && k < |dates| && k < |other|
  {
    exists t :: 0 <= t <= k && Accepts(dates, matrix, u, def, tools, t) && Accepts(other, changed, v, def, tools, t)
  }

  /**
    How long different initial weights show: with the same earlier returns, weights at row k are the same exactly when
    the initial ones were, or the portfolio is dynamic and both simulations accepted at one row by then.
   */
  lemma {:induction false} InitialWeightsLinger(dates: seq<string>, other: seq<string>, matrix: seq<seq<real>>,
                                                changed: seq<seq<real>>, u: seq<real>, v: seq<real>, def: Definition,
                                                tools: Tools, k: nat)
    requires Runs(dates, matrix, u, def) && Runs(other, changed, v, def) && |u| == |v| && Simplex(u) && Simplex(v)
    requires k < |dates| && k < |other| && dates[..k + 1] == other[..k + 1] && matrix[..k] == changed[..k]
    ensures WeightsAt(dates, matrix, u, def, tools, k) == WeightsAt(other, changed, v, def, tools, k) <==>
            u == v || (def.dynamics != Static && Meet(dates, other, matrix, changed, u, v, def, tools, k))
  {
    hide Simplex, Accepts, Rebalanced, DynamicWeights, Triggered, Contributions;
    OneRow(dates, other, matrix, changed, u, v, def, tools, k);
    if k > 0 {
      assert dates[..k] == dates[..k + 1][..k] == other[..k + 1][..k] == other[..k];
      assert matrix[..k - 1] == matrix[..k][..k - 1] == changed[..k][..k - 1] == changed[..k - 1];
      InitialWeightsLinger(dates, other, matrix, changed, u, v, def, tools, k - 1);
    }
  }

  // ----- When the recorded policy is kept -----

  /** A cap that no rebalance can break: turnover is at most two. */
  predicate NeverCapped(def: Definition) { def.maxTurnover.Some? ==> def.maxTurnover.value >= 2.0 }

  ghost predicate RebalancedBy(dates: seq<string>, def: Definition, tools: Tools, k: nat)
    requires k < |dates|
  {
    exists t :: 0 <= t <= k && Triggered(dates, t, def, tools)
  }

  lemma AllAccepted(dates: seq<string>, matrix: seq<seq<real>>, initial: seq<real>, def: Definition, tools: Tools, k: nat)
    requires Runs(dates, matrix, initial, def) && k < |dates| && Simplex(initial) && NeverCapped(def)
    ensures Accepts(dates, matrix, initial, def, tools, k) == Triggered(dates, k, def, tools)
  {
    hide Simplex, Turnover, Run;
    WeightsAreAccepted(dates, matrix, initial, def, tools, k);
    var s := Run(dates, matrix, initial, def, tools, k);
    if Triggered(dates, k, def, tools) {
      TurnoverOfSimplices(DynamicWeights(matrix[..k], s.weights, def, tools), s.previous);
    }
  }

  lemma UncappedWeights(dates: seq<string>, matrix: seq<seq<real>>, changed: seq<seq<real>>, u: seq<real>, v: seq<real>,
                        def: Definition, tools: Tools, k: nat)
    requires Runs(dates, matrix, u, def) && Runs(dates, changed, v, def) && |u| == |v| && Simplex(u) && Simplex(v)
    requires k < |dates| && matrix[..k] == changed[..k] && NeverCapped(def)
    ensures WeightsAt(dates, matrix, u, def, tools, k) == WeightsAt(dates, changed, v, def, tools, k) <==>
            u == v || (def.dynamics != Static && RebalancedBy(dates, def, tools, k))
  {
    hide Simplex, Accepts, WeightsAt, Triggered;
    InitialWeightsLinger(dates, dates, matrix, changed, u, v, def, tools, k);
    forall t | 0 <= t <= k
      ensures Accepts(dates, matrix, u, def, tools, t) == Triggered(dates, t, def, tools)
              == Accepts(dates, changed, v, def, tools, t)
    {
      AllAccepted(dates, matrix, u, def, tools, t);
      AllAccepted(dates, changed, v, def, tools, t);
    }
  }

  function Constructed(dates: seq<string>, matrix: seq<seq<real>>, columns: nat, allocation: Allocation,
                       def: Definition, tools: Tools, k: nat): (w: seq<real>)
    requires |dates| == |matrix| && IsMatrix(matrix, columns) && columns > 0 && def.lookback >= 2 && k < |dates|
    ensures |w| == columns
  {
    WeightsAt(dates, matrix, Allocate(matrix, columns, allocation, tools), def, tools, k)
  }

  /** Two return matrices that are the same before row k. */
  predicate Differ(matrix: seq<seq<real>>, changed: seq<seq<real>>, rows: nat, columns: nat, k: nat)
    requires k <= rows
  {
    && |matrix| == |changed| == rows && IsMatrix(matrix, columns) && IsMatrix(changed, columns)
    && matrix[..k] == changed[..k]
  }

  /** Whatever returns are like, the weights at row k do not change when row k or a later one does. */
  ghost predicate UsesEarlierRows(dates: seq<string>, columns: nat, allocation: Allocation, def: Definition,
                                  tools: Tools, k: nat)
    requires columns > 0 && def.lookback >= 2 && k < |dates|
  {
    forall matrix, changed :: Differ(matrix, changed, |dates|, columns, k) ==>
        Constructed(dates, matrix, columns, allocation, def, tools, k)
        == Constructed(dates, changed, columns, allocation, def, tools, k)
  }

  /**
    The policy, exactly: weights at row k use only earlier rows when they start equal, when there is one strategy, or
    when a dynamic portfolio, under a cap that no rebalance can break, has rebalanced by then; and otherwise not.
   */
  lemma PolicyKeptIff(dates: seq<string>, columns: nat, allocation: Allocation, def: Definition, tools: Tools, k: nat)
    requires columns > 0 && def.lookback >= 2 && k < |dates| && |dates| >= 2 && IsDeviation(tools.deviation)
    ensures UsesEarlierRows(dates, columns, allocation, def, tools, k) <==>
            || allocation == EqualWeight
            || columns == 1
            || (def.dynamics != Static && NeverCapped(def) && RebalancedBy(dates, def, tools, k))
  {
    hide Allocate, RebalancedBy, Simplex, IsDeviation, WeightsAt, NeverCapped, Skewed, Steepness, Jump;
    if allocation == EqualWeight || columns == 1 {
      forall matrix, changed | Differ(matrix, changed, |dates|, columns, k)
        ensures Constructed(dates, matrix, columns, allocation, def, tools, k)
                == Constructed(dates, changed, columns, allocation, def, tools, k)
      {
        AllocateBlindly(matrix, changed, columns, allocation, tools);
        var initial := Allocate(matrix, columns, allocation, tools);
        InitialWeightsLinger(dates, dates, matrix, changed, initial, initial, def, tools, k);
      }
    } else if def.dynamics != Static && NeverCapped(def) && RebalancedBy(dates, def, tools, k) {
      forall matrix, changed | Differ(matrix, changed, |dates|, columns, k)
        ensures Constructed(dates, matrix, columns, allocation, def, tools, k)
                == Constructed(dates, changed, columns, allocation, def, tools, k)
      {
        UncappedWeights(dates, matrix, changed, Allocate(matrix, columns, allocation, tools),
                        Allocate(changed, columns, allocation, tools), def, tools, k);
      }
    } else {
      LateRowsDecide(dates, columns, def, tools, k);
    }
  }

  lemma {:induction false} AllocateBlindly(matrix: seq<seq<real>>, changed: seq<seq<real>>, columns: nat,
                                           allocation: Allocation, tools: Tools)
    requires IsMatrix(matrix, columns) && IsMatrix(changed, columns) && columns > 0
    requires allocation == EqualWeight || columns == 1
    ensures Allocate(matrix, columns, allocation, tools) == Allocate(changed, columns, allocation, tools)
  {
    if allocation == EqualWeight {
      assert Unscaled(matrix, columns, allocation, tools) == Unscaled(changed, columns, allocation, tools);
    } else {
      var a, b := Allocate(matrix, columns, allocation, tools), Allocate(changed, columns, allocation, tools);
      assert Sum(a[..0]) == 0.0 == Sum(b[..0]);
      assert a == [1.0] == b;
    }
  }

  // ----- Rebalances that are all rejected -----

  /** At this row, weights chosen from the earlier rows would turn over more than the cap. */
  predicate TooFar(matrix: seq<seq<real>>, initial: seq<real>, def: Definition, tools: Tools, t: nat)
    requires initial != [] && IsMatrix(matrix, |initial|) && 2 <= def.lookback <= t <= |matrix|
  {
    !UnderCap(Turnover(DynamicWeights(matrix[..t], initial, def, tools), initial), def)
  }

  lemma {:induction false} NeverAccepts(dates: seq<string>, matrix: seq<seq<real>>, initial: seq<real>, def: Definition,
                                        tools: Tools, k: nat)
    requires Runs(dates, matrix, initial, def) && k < |dates| && Simplex(initial)
    requires forall t :: 0 <= t <= k && Triggered(dates, t, def, tools) ==> TooFar(matrix, initial, def, tools, t)
    ensures forall t :: 0 <= t <= k ==> !Accepts(dates, matrix, initial, def, tools, t)
    ensures WeightsAt(dates, matrix, initial, def, tools, k) == initial
  {
    hide Simplex, UnderCap, Turnover, DynamicWeights, ShouldRebalance;
    if k > 0 {
      NeverAccepts(dates, matrix, initial, def, tools, k - 1);
    }
    RowWeights(dates, matrix, initial, def, tools, k);
    hide Run;
  }

  lemma {:induction false} TurnoverAtLeast(u: seq<real>, v: seq<real>)
    requires |u| == |v| > 0
    ensures Turnover(u, v) >= 2.0 * (u[0] - v[0]) - (Sum(u) - Sum(v))
  {
    var n := |u| - 1;
    assert Gaps(u, v)[..n] == Gaps(u[..n], v[..n]);
    if n > 0 {
      TurnoverAtLeast(u[..n], v[..n]);
    } else {
      assert u[..0] == [] && v[..0] == [] && Gaps(u, v)[..0] == [];
    }
  }

  // ----- Two matrices that differ in their last row only -----

  /**
    The first strategy returns n but for its last row, which is `jump` higher for each row; every other one falls by n
    from row to row.
   */
  function Skewed(rows: nat, columns: nat, n: real, jump: real): (m: seq<seq<real>>)
    ensures |m| == rows && IsMatrix(m, columns)
  {
    seq(rows, i requires 0 <= i < rows =>
      seq(columns, j requires 0 <= j < columns =>
        if j > 0 then -n * i as real else if i < rows - 1 then n else n + jump * rows as real))
  }

  // ----- What the two constructions hold -----

  /** How little the first strategy must get at first, for the cap to reject giving it almost everything. */
  function Slack(def: Definition): (delta: real)
    ensures 0.0 < delta <= 0.25
    ensures !NeverCapped(def) ==> 2.0 * (1.0 - 2.0 * delta) > def.maxTurnover.value
  {
    if NeverCapped(def) then 0.25 else MinReal(0.25, (2.0 - def.maxTurnover.value) / 8.0)
  }

  function Least(columns: nat, delta: real): (least: real)
    requires columns > 0 && delta > 0.0
    ensures least > 0.0 && least * delta == columns as real * 0.00000001
  {
    columns as real * 0.00000001 / delta
  }

  /** Steep enough for the lookback window. */
  function Steepness(columns: nat, def: Definition): (n: real)
    requires columns > 0 && def.lookback >= 2
    ensures n > 0.0
  {
    RampVaries(def.lookback);
    var least := Least(columns, Slack(def));
    PositiveQuotient(least, CorrelationStress.Variance(Ramp(def.lookback)));
    least + least / CorrelationStress.Variance(Ramp(def.lookback))
  }

  /** Rows of the matrices before the last: a constant first column, and falling ones. */
  ghost predicate Falling(window: seq<seq<real>>, columns: nat, n: real, from: nat) {
    && window != [] && IsMatrix(window, columns) && columns > 0
    && (forall i :: 0 <= i < |window| ==> ColumnOf(window, 0)[i] == n)
    && forall i, j :: 0 <= i < |window| && 1 <= j < columns ==> ColumnOf(window, j)[i] == -n * (from + i) as real
  }

  lemma WindowFalls(rows: nat, columns: nat, n: real, jump: real, t: nat, lookback: nat)
    requires 2 <= lookback <= t < rows && columns > 0
    ensures var window := Skewed(rows, columns, n, jump)[..t][t - lookback..];
            |window| == lookback && Falling(window, columns, n, t - lookback)
  {
  }

  lemma FallingRisk(window: seq<seq<real>>, columns: nat, def: Definition, tools: Tools, from: nat)
    requires def.lookback >= 2 && columns > 0 && IsDeviation(tools.deviation) && |window| == def.lookback
    requires Falling(window, columns, Steepness(columns, def), from)
    ensures var raw := InverseDeviations(window, columns, tools);
            && raw[0] == 100000000.0
            && forall j :: 1 <= j < columns ==> raw[j] <= 1.0 / Least(columns, Slack(def))
  {
    hide IsDeviation, CorrelationStress.Variance, Slack, Least, Steepness, FlooredInverse;
    var n, least, v := Steepness(columns, def), Least(columns, Slack(def)), CorrelationStress.Variance(Ramp(def.lookback));
    FlatDeviation(tools.deviation, ColumnOf(window, 0), n);
    SteepnessIs(columns, def);
    forall j | 1 <= j < columns
      ensures FlooredInverse(tools.deviation(ColumnOf(window, j))) <= 1.0 / least
    {
      FallDeviation(tools.deviation, ColumnOf(window, j), from, n, least, v);
      InverseOrder(least, tools.deviation(ColumnOf(window, j)));
    }
  }

  lemma FallingPerformance(window: seq<seq<real>>, columns: nat, n: real, from: nat)
    requires columns > 0 && n > 0.0 && Falling(window, columns, n, from)
    ensures var raw := Performance(window, columns);
            raw[0] >= n && forall j :: 1 <= j < columns ==> raw[j] == 0.00000001
  {
    hide Mean;
    FlatMean(ColumnOf(window, 0), n);
    forall j | 1 <= j < columns
      ensures Mean(ColumnOf(window, j)) <= 0.0
    {
      FallingMean(ColumnOf(window, j), from, n);
    }
  }

  /** Both methods give the first strategy almost everything, whatever rows of the two matrices they look at. */
  lemma FirstIsChosen(rows: nat, columns: nat, jump: real, def: Definition, tools: Tools, t: nat)
    requires 2 <= def.lookback <= t < rows && columns > 0 && IsDeviation(tools.deviation) && def.dynamics != Static
    ensures var window := Skewed(rows, columns, Steepness(columns, def), jump)[..t][t - def.lookback..];
            && IsMatrix(window, columns) && window != []
            && var raw := RawWeights(window, columns, def, tools);
               Sum(raw) > 0.0 && raw[0] / Sum(raw) >= 1.0 - Slack(def)
  {
    hide Sum, IsDeviation, Skewed, Slack, Least, Steepness, Falling, InverseDeviations, Performance;
    var n, delta, least := Steepness(columns, def), Slack(def), Least(columns, Slack(def));
    var window := Skewed(rows, columns, n, jump)[..t][t - def.lookback..];
    WindowFalls(rows, columns, n, jump, t, def.lookback);
    var raw := RawWeights(window, columns, def, tools);
    if def.dynamics == InverseVolatility {
      FallingRisk(window, columns, def, tools, t - def.lookback);
      SmallInverses(columns as real, least, delta);
      PositiveQuotient(1.0, least);
      MostOfIt(raw, 1.0 / least, delta);
    } else {
      FallingPerformance(window, columns, n, t - def.lookback);
      SteepnessIs(columns, def);
      CorrelationStress.Monotone(least, raw[0], delta);
      MostOfIt(raw, 0.00000001, delta);
    }
  }

  lemma SteepnessIs(columns: nat, def: Definition)
    requires columns > 0 && def.lookback >= 2
    ensures var least, v := Least(columns, Slack(def)), CorrelationStress.Variance(Ramp(def.lookback));
            v > 0.0 && Steepness(columns, def) == least + least / v && Steepness(columns, def) >= least
  {
    hide CorrelationStress.Variance, Slack, Least;
    RampVaries(def.lookback);
    PositiveQuotient(Least(columns, Slack(def)), CorrelationStress.Variance(Ramp(def.lookback)));
  }

  /** A last jump so high that the first strategy starts with a small share. */
  function Jump(rows: nat, columns: nat, def: Definition, tools: Tools): (w: real)
    requires rows >= 2 && columns >= 2 && def.lookback >= 2
  {
    MaxReal(tools.deviation(ColumnOf(Skewed(rows, columns, Steepness(columns, def), 0.0), 1)), 0.00000001) / Slack(def)
  }

  lemma WholeColumns(rows: nat, columns: nat, n: real, jump: real)
    requires rows >= 2 && columns >= 2
    ensures var m := Skewed(rows, columns, n, jump);
            && ColumnOf(m, 1) == ColumnOf(Skewed(rows, columns, n, 0.0), 1)
            && forall i :: 0 <= i < rows ==> ColumnOf(m, 0)[i] == if i < rows - 1 then n else n + jump * rows as real
  {
  }

  lemma StartingRaws(rows: nat, columns: nat, def: Definition, tools: Tools)
    requires rows >= 2 && columns >= 2 && def.lookback >= 2 && IsDeviation(tools.deviation)
    ensures var n, w := Steepness(columns, def), Jump(rows, columns, def, tools);
            var a := Unscaled(Skewed(rows, columns, n, w), columns, InverseRisk, tools);
            var b := Unscaled(Skewed(rows, columns, n, 2.0 * w), columns, InverseRisk, tools);
            a[1] == b[1] && a[0] == 2.0 * b[0] && a[0] <= Slack(def) * a[1]
  {
    hide Sum, IsDeviation, Skewed, Slack, Steepness;
    var n, w, delta := Steepness(columns, def), Jump(rows, columns, def, tools), Slack(def);
    var early, late := Skewed(rows, columns, n, w), Skewed(rows, columns, n, 2.0 * w);
    WholeColumns(rows, columns, n, w);
    WholeColumns(rows, columns, n, 2.0 * w);
    var first, second := tools.deviation(ColumnOf(early, 0)), MaxReal(tools.deviation(ColumnOf(early, 1)), 0.00000001);
    JumpIsHigh(second, w, delta);
    JumpDeviation(tools.deviation, ColumnOf(early, 0), ColumnOf(late, 0), n, w);
    CorrelationStress.Monotone(w, first, delta);
    HalvedInverse(first);
    SmallShare(first, second, delta);
  }

  /** The two initial allocations differ, and the earlier one gives the first strategy little. */
  lemma StartsFarAway(rows: nat, columns: nat, def: Definition, tools: Tools)
    requires rows >= 2 && columns >= 2 && def.lookback >= 2 && IsDeviation(tools.deviation)
    ensures var n, w := Steepness(columns, def), Jump(rows, columns, def, tools);
            var u := Allocate(Skewed(rows, columns, n, w), columns, InverseRisk, tools);
            var v := Allocate(Skewed(rows, columns, n, 2.0 * w), columns, InverseRisk, tools);
            u[0] <= Slack(def) && u != v
  {
    hide Sum, IsDeviation, Simplex, Allocate, Unscaled, Skewed, Slack, Steepness, Jump;
    var n, w := Steepness(columns, def), Jump(rows, columns, def, tools);
    var early, late := Skewed(rows, columns, n, w), Skewed(rows, columns, n, 2.0 * w);
    StartingRaws(rows, columns, def, tools);
    var a, b := Unscaled(early, columns, InverseRisk, tools), Unscaled(late, columns, InverseRisk, tools);
    SharesOf(early, columns, InverseRisk, tools, 0);
    SharesOf(early, columns, InverseRisk, tools, 1);
    SharesOf(late, columns, InverseRisk, tools, 0);
    SharesOf(late, columns, InverseRisk, tools, 1);
    AtLeastEach(a, 1);
    AtMostShare(a[0], a[1], Sum(a), Slack(def));
    DifferentShares(b[0], a[1], Sum(a), Sum(b));
  }

  lemma SharesOf(matrix: seq<seq<real>>, columns: nat, allocation: Allocation, tools: Tools, j: nat)
    requires IsMatrix(matrix, columns) && j < columns
    ensures var raw := Unscaled(matrix, columns, allocation, tools);
            && Sum(raw) > 0.0 && raw[j] > 0.0
            && Allocate(matrix, columns, allocation, tools)[j] == raw[j] / Sum(raw)
  {
    hide Sum, Simplex;
    PositiveSum(Unscaled(matrix, columns, allocation, tools));
  }

  /** Under a cap that can bind, every rebalance of the first construction is rejected. */
  lemma AllTooFar(dates: seq<string>, columns: nat, def: Definition, tools: Tools, t: nat)
    requires columns >= 2 && def.lookback >= 2 && t < |dates| && |dates| >= 2 && IsDeviation(tools.deviation)
    requires def.dynamics != Static && !NeverCapped(def) && Triggered(dates, t, def, tools)
    ensures var matrix := Skewed(|dates|, columns, Steepness(columns, def), Jump(|dates|, columns, def, tools));
            TooFar(matrix, Allocate(matrix, columns, InverseRisk, tools), def, tools, t)
  {
    hide Sum, IsDeviation, Allocate, Skewed, Slack, Steepness, Jump, Turnover, RawWeights;
    var rows, w := |dates|, Jump(|dates|, columns, def, tools);
    var matrix := Skewed(rows, columns, Steepness(columns, def), w);
    var u := Allocate(matrix, columns, InverseRisk, tools);
    StartsFarAway(rows, columns, def, tools);
    FirstIsChosen(rows, columns, w, def, tools, t);
    var raw := RawWeights(matrix[..t][t - def.lookback..], columns, def, tools);
    TwiceScaled(raw, 0);
    var chosen := DynamicWeights(matrix[..t], u, def, tools);
    assert chosen[0] == raw[0] / Sum(raw);
    TurnoverAtLeast(chosen, u);
    hide DynamicWeights;
  }

  /** In every other case the last row alone changes the weights at row k. */
  lemma LateRowsDecide(dates: seq<string>, columns: nat, def: Definition, tools: Tools, k: nat)
    requires columns >= 2 && def.lookback >= 2 && k < |dates| && |dates| >= 2 && IsDeviation(tools.deviation)
    requires !(def.dynamics != Static && NeverCapped(def) && RebalancedBy(dates, def, tools, k))
    ensures var n, w := Steepness(columns, def), Jump(|dates|, columns, def, tools);
            var matrix, changed := Skewed(|dates|, columns, n, w), Skewed(|dates|, columns, n, 2.0 * w);
            && Differ(matrix, changed, |dates|, columns, k)
            && Constructed(dates, matrix, columns, InverseRisk, def, tools, k)
               != Constructed(dates, changed, columns, InverseRisk, def, tools, k)
  {
    hide IsDeviation, Allocate, Skewed, Steepness, Jump, Simplex, WeightsAt, TooFar, ShouldRebalance, NeverCapped, Accepts, Slack;
    var n, w := Steepness(columns, def), Jump(|dates|, columns, def, tools);
    var matrix, changed := Skewed(|dates|, columns, n, w), Skewed(|dates|, columns, n, 2.0 * w);
    var u, v := Allocate(matrix, columns, InverseRisk, tools), Allocate(changed, columns, InverseRisk, tools);
    StartsFarAway(|dates|, columns, def, tools);
    SameBeforeLast(|dates|, columns, n, w, 2.0 * w, k);
    InitialWeightsLinger(dates, dates, matrix, changed, u, v, def, tools, k);
    if def.dynamics != Static && RebalancedBy(dates, def, tools, k) {
      forall t | 0 <= t <= k && Triggered(dates, t, def, tools)
        ensures TooFar(matrix, u, def, tools, t)
      {
        AllTooFar(dates, columns, def, tools, t);
      }
      NeverAccepts(dates, matrix, u, def, tools, k);
    } else if def.dynamics != Static {
      forall t | 0 <= t <= k
        ensures !Accepts(dates, matrix, u, def, tools, t)
      {
        OnlyTriggered(dates, matrix, u, def, tools, t);
      }
    }
  }

  lemma OnlyTriggered(dates: seq<string>, matrix: seq<seq<real>>, initial: seq<real>, def: Definition, tools: Tools, k: nat)
    requires Runs(dates, matrix, initial, def) && k < |dates|
    ensures Accepts(dates, matrix, initial, def, tools, k) ==> Triggered(dates, k, def, tools)
  {
    hide Run, Turnover, DynamicWeights;
  }

  lemma SameBeforeLast(rows: nat, columns: nat, n: real, v: real, w: real, k: nat)
    requires k < rows
    ensures Skewed(rows, columns, n, v)[..k] == Skewed(rows, columns, n, w)[..k]
  {
    forall i | 0 <= i < k
      ensures Skewed(rows, columns, n, v)[i] == Skewed(rows, columns, n, w)[i]
    {
    }
  }
}
