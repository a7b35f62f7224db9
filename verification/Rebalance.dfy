/** The portfolio simulation: dynamic weights under a turnover cap, with costs charged on accepted turnover. */
module Rebalance {
  import opened Common

  datatype Method = Static | InverseVolatility | PerformanceAware

  datatype Frequency = Weekly | Monthly

  datatype Definition = Definition(
    dynamics: Method, frequency: Frequency, lookback: nat, maxTurnover: Option<real>, costBps: real)

  /** What the simulation takes from elsewhere: the ISO week of a date and the sample deviation of a series. */
  datatype Tools = Tools(week: string -> int, deviation: seq<real> -> real)

  datatype Entry =
    | Rejected(timestamp: string, turnover: real)
    | Accepted(timestamp: string, former: seq<real>, accepted: seq<real>, turnover: real, cost: real)
  {
    function Cost(): real { if Accepted? then cost else 0.0 }

    function AcceptedPart(): real { if Accepted? then turnover else 0.0 }

    function RejectedPart(): real { if Rejected? then turnover else 0.0 }
  }

  datatype Point = Point(timestamp: string, net: real, cost: real, turnover: real, contributions: seq<real>)

  datatype State = State(weights: seq<real>, previous: seq<real>, history: seq<Entry>, points: seq<Point>)

  function CostRate(def: Definition): real { def.costBps / 10000.0 }

  function Charge(turnover: real, rate: real): real { turnover * rate }

  // ----- Weights -----

  predicate IsMatrix(matrix: seq<seq<real>>, columns: nat) {
    forall i :: 0 <= i < |matrix| ==> |matrix[i]| == columns
  }

  function Scaled(raw: seq<real>): (r: seq<real>)
    requires Sum(raw) != 0.0
    ensures |r| == |raw|
  {
    seq(|raw|, j requires 0 <= j < |raw| => raw[j] / Sum(raw))
  }

  /** Non-negative and summing to one. */
  predicate Simplex(w: seq<real>) {
    Sum(w) == 1.0 && forall j :: 0 <= j < |w| ==> w[j] >= 0.0
  }

  lemma {:induction false} PositiveSum(raw: seq<real>)
    requires raw != [] && forall j :: 0 <= j < |raw| ==> raw[j] > 0.0
    ensures Sum(raw) > 0.0
  {
    SumNonNegative(raw);
    assert raw[0] <= Sum(raw);
  }

  lemma {:induction false} ScaledIsSimplex(raw: seq<real>)
    requires Sum(raw) > 0.0 && forall j :: 0 <= j < |raw| ==> raw[j] >= 0.0
    ensures Simplex(Scaled(raw))
  {
    hide Sum;
    var total := Sum(raw);
    var k := 1.0 / total;
    forall j | 0 <= j < |raw|
      ensures Scaled(raw)[j] == k * raw[j] && Scaled(raw)[j] >= 0.0
    {
      Quotient(raw[j], total);
    }
    SumScale(raw, Scaled(raw), k);
    Quotient(0.0, total);
  }

  lemma Quotient(x: real, total: real)
    requires total > 0.0 && x >= 0.0
    ensures x / total == (1.0 / total) * x && x / total >= 0.0 && (1.0 / total) * total == 1.0
  {
  }

  function FlooredInverse(deviation: real): (r: real)
    ensures r > 0.0
  {
    1.0 / MaxReal(deviation, 0.00000001)
  }

  function DeviationOf(window: seq<seq<real>>, j: nat, tools: Tools): real
    requires forall i :: 0 <= i < |window| ==> j < |window[i]|
  {
    tools.deviation(ColumnOf(window, j))
  }

  /** One over each column's deviation, floored so that it never divides by zero. */
  function InverseDeviations(window: seq<seq<real>>, columns: nat, tools: Tools): (r: seq<real>)
    requires IsMatrix(window, columns)
    ensures |r| == columns && forall j :: 0 <= j < columns ==> r[j] > 0.0
  {
    seq(columns, j requires 0 <= j < columns => FlooredInverse(DeviationOf(window, j, tools)))
  }

  /** Each column's mean return, losers held just above zero. */
  function Performance(window: seq<seq<real>>, columns: nat): (r: seq<real>)
    requires IsMatrix(window, columns) && window != []
    ensures |r| == columns && forall j :: 0 <= j < columns ==> r[j] > 0.0
  {
    seq(columns, j requires 0 <= j < columns => MaxReal(Mean(ColumnOf(window, j)), 0.0) + 0.00000001)
  }

  function RawWeights(window: seq<seq<real>>, columns: nat, def: Definition, tools: Tools): (r: seq<real>)
    requires IsMatrix(window, columns) && window != []
    ensures |r| == columns && forall j :: 0 <= j < columns ==> r[j] > 0.0
  {
    if def.dynamics == InverseVolatility then InverseDeviations(window, columns, tools)
    else Performance(window, columns)
  }

  /** New weights from the rows before this one; scaled twice, as the allocation is before it is used. */
  function DynamicWeights(history: seq<seq<real>>, prior: seq<real>, def: Definition, tools: Tools): (w: seq<real>)
    requires prior != [] && IsMatrix(history, |prior|) && 2 <= def.lookback <= |history|
    ensures |w| == |prior|
    ensures Simplex(prior) ==> Simplex(w)
  {
    var window := history[|history| - def.lookback..];
    if def.dynamics == Static then prior
    else
      var raw := RawWeights(window, |prior|, def, tools);
      PositiveSum(raw);
      ScaledIsSimplex(raw);
      ScaledIsSimplex(Scaled(raw));
      Scaled(Scaled(raw))
  }

  /**
    What the methods are for: weights are in inverse proportion to the floored deviations, or in proportion to the
    floored mean returns, of the lookback rows; a static portfolio keeps its weights.
   */
  lemma WeightsFollowTheMethod(history: seq<seq<real>>, prior: seq<real>, def: Definition, tools: Tools, i: nat, j: nat)
    requires prior != [] && IsMatrix(history, |prior|) && 2 <= def.lookback <= |history|
    requires i < |prior| && j < |prior|
    ensures var w, window := DynamicWeights(history, prior, def, tools), history[|history| - def.lookback..];
            && (def.dynamics == Static ==> w == prior)
            && (def.dynamics == InverseVolatility ==>
                  w[i] * MaxReal(DeviationOf(window, i, tools), 0.00000001)
                  == w[j] * MaxReal(DeviationOf(window, j, tools), 0.00000001))
            && (def.dynamics == PerformanceAware ==>
                  w[i] * (MaxReal(Mean(ColumnOf(window, j)), 0.0) + 0.00000001)
                  == w[j] * (MaxReal(Mean(ColumnOf(window, i)), 0.0) + 0.00000001))
  {
    hide Sum, Scaled, MaxReal, RawWeights, DeviationOf, Mean;
    if def.dynamics != Static {
      var window := history[|history| - def.lookback..];
      var raw := RawWeights(window, |prior|, def, tools);
      PositiveSum(raw);
      TwiceScaled(raw, i);
      TwiceScaled(raw, j);
      SharesOfRaw(window, |prior|, def, tools, i, j, Sum(raw));
    }
  }

  lemma SharesOfRaw(window: seq<seq<real>>, columns: nat, def: Definition, tools: Tools, i: nat, j: nat, total: real)
    requires IsMatrix(window, columns) && window != [] && i < columns && j < columns && total > 0.0
    ensures var raw := RawWeights(window, columns, def, tools);
            && (def.dynamics == InverseVolatility ==>
                  raw[i] / total * MaxReal(DeviationOf(window, i, tools), 0.00000001)
                  == raw[j] / total * MaxReal(DeviationOf(window, j, tools), 0.00000001))
            && (def.dynamics == PerformanceAware ==>
                  raw[i] / total * (MaxReal(Mean(ColumnOf(window, j)), 0.0) + 0.00000001)
                  == raw[j] / total * (MaxReal(Mean(ColumnOf(window, i)), 0.0) + 0.00000001))
  {
    hide DeviationOf, Mean, MaxReal;
    if def.dynamics == InverseVolatility {
      FloorIsPositive(DeviationOf(window, i, tools));
      FloorIsPositive(DeviationOf(window, j, tools));
      EqualShares(MaxReal(DeviationOf(window, i, tools), 0.00000001), MaxReal(DeviationOf(window, j, tools), 0.00000001), total);
    } else {
      var raw := RawWeights(window, columns, def, tools);
      CrossShares(raw[i], raw[j], total);
    }
  }

  lemma FloorIsPositive(x: real)
    ensures MaxReal(x, 0.00000001) > 0.0
  {
  }

  lemma TwiceScaled(raw: seq<real>, j: nat)
    requires Sum(raw) > 0.0 && (forall k :: 0 <= k < |raw| ==> raw[k] >= 0.0) && j < |raw|
    ensures Sum(Scaled(raw)) == 1.0 && Scaled(Scaled(raw))[j] == raw[j] / Sum(raw)
  {
    ScaledIsSimplex(raw);
    hide Sum;
  }

  lemma EqualShares(a: real, b: real, total: real)
    requires a > 0.0 && b > 0.0 && total > 0.0
    ensures 1.0 / a / total * a == 1.0 / b / total * b
  {
    Cancels(a, total);
    Cancels(b, total);
  }

  lemma Cancels(a: real, total: real)
    requires a > 0.0 && total > 0.0
    ensures 1.0 / a / total * a == 1.0 / total
  {
    var x := 1.0 / a;
    assert x * a == 1.0;
    assert x / total == x * (1.0 / total);
    assert x * (1.0 / total) * a == (x * a) * (1.0 / total);
  }

  lemma CrossShares(a: real, b: real, total: real)
    requires total > 0.0
    ensures a / total * b == b / total * a
  {
    assert a / total * b == a * b / total;
    assert b / total * a == a * b / total;
  }

  function Gaps(u: seq<real>, v: seq<real>): (r: seq<real>)
    requires |u| == |v|
    ensures |r| == |u|
  {
    seq(|u|, j requires 0 <= j < |u| => AbsReal(u[j] - v[j]))
  }

  function Turnover(u: seq<real>, v: seq<real>): real
    requires |u| == |v|
  {
    Sum(Gaps(u, v))
  }

  function Contributions(w: seq<real>, row: seq<real>): (r: seq<real>)
    requires |w| == |row|
    ensures |r| == |w|
  {
    seq(|w|, j requires 0 <= j < |w| => w[j] * row[j])
  }

  // ----- The loop -----

  function Prefix(s: string, n: nat): string { if n <= |s| then s[..n] else s }

  predicate ShouldRebalance(dates: seq<string>, k: nat, def: Definition, tools: Tools)
    requires k < |dates|
  {
    k > 0 && if def.frequency == Weekly then tools.week(dates[k]) != tools.week(dates[k - 1])
             else Prefix(dates[k], 7) != Prefix(dates[k - 1], 7)
  }

  predicate Runs(dates: seq<string>, matrix: seq<seq<real>>, initial: seq<real>, def: Definition) {
    |dates| == |matrix| && initial != [] && IsMatrix(matrix, |initial|) && def.lookback >= 2
  }

  /** The rebalance at a row: new weights unless they would turn over more than the cap. */
  function Rebalanced(s: State, chosen: seq<real>, date: string, def: Definition): State
    requires |chosen| == |s.previous|
  {
    var turnover := Turnover(chosen, s.previous);
    if def.maxTurnover.Some? && turnover > def.maxTurnover.value then
      s.(weights := s.previous, history := s.history + [Rejected(date, turnover)])
    else
      State(chosen, chosen,
            s.history + [Accepted(date, s.previous, chosen, turnover, Charge(turnover, CostRate(def)))], s.points)
  }

  /** The row's point; a cost or turnover is charged when the last history entry carries the row's date. */
  function Marked(s: State, date: string, row: seq<real>): State
    requires |s.weights| == |row|
  {
    var charged := s.history != [] && s.history[|s.history| - 1].timestamp == date;
    var cost := if charged then s.history[|s.history| - 1].Cost() else 0.0;
    var turnover := if charged then s.history[|s.history| - 1].turnover else 0.0;
    var contributions := Contributions(s.weights, row);
    s.(points := s.points + [Point(date, Sum(contributions) - cost, cost, turnover, contributions)])
  }

  predicate Triggered(dates: seq<string>, k: nat, def: Definition, tools: Tools)
    requires k < |dates|
  {
    ShouldRebalance(dates, k, def, tools) && k >= def.lookback
  }

  /** The state in which a row's contributions are taken. */
  function Positioned(s: State, dates: seq<string>, matrix: seq<seq<real>>, k: nat, def: Definition, tools: Tools)
    : (t: State)
    requires s.weights != [] && |s.previous| == |s.weights| && IsMatrix(matrix, |s.weights|)
    requires k < |dates| == |matrix| && def.lookback >= 2
    ensures |t.weights| == |t.previous| == |s.weights| && t.points == s.points
  {
    if Triggered(dates, k, def, tools)
    then Rebalanced(s, DynamicWeights(matrix[..k], s.weights, def, tools), dates[k], def)
    else s
  }

  function Run(dates: seq<string>, matrix: seq<seq<real>>, initial: seq<real>, def: Definition, tools: Tools, k: nat)
    : (s: State)
    requires Runs(dates, matrix, initial, def) && k <= |dates|
    ensures |s.weights| == |s.previous| == |initial|
  {
    if k == 0 then State(initial, initial, [], [])
    else
      Marked(Positioned(Run(dates, matrix, initial, def, tools, k - 1), dates, matrix, k - 1, def, tools),
             dates[k - 1], matrix[k - 1])
  }

  method Simulate(dates: seq<string>, matrix: seq<seq<real>>, initial: seq<real>, def: Definition, tools: Tools)
    returns (points: seq<Point>, history: seq<Entry>)
    requires Runs(dates, matrix, initial, def)
    ensures var end := Run(dates, matrix, initial, def, tools, |dates|); points == end.points && history == end.history
  {
    hide DynamicWeights, Turnover, Contributions, ShouldRebalance, CostRate, Charge, Sum;
    var weights, previous := initial, initial;
    points, history := [], [];
    var costRate := CostRate(def);
    for index := 0 to |dates|
      invariant State(weights, previous, history, points) == Run(dates, matrix, initial, def, tools, index)
    {
      ghost var before := Run(dates, matrix, initial, def, tools, index);
      assert previous == before.previous && history == before.history;
      var timestamp := dates[index];
      if Triggered(dates, index, def, tools) {
        weights := DynamicWeights(matrix[..index], weights, def, tools);
        ghost var moved := Rebalanced(before, weights, timestamp, def);
        var turnover := Turnover(weights, previous);
        if def.maxTurnover.Some? && turnover > def.maxTurnover.value {
          weights := previous;
          history := history + [Rejected(timestamp, turnover)];
        } else {
          history := history + [Accepted(timestamp, previous, weights, turnover, Charge(turnover, costRate))];
          previous := weights;
        }
        assert State(weights, previous, history, points) == moved;
      }
      assert State(weights, previous, history, points) == Positioned(before, dates, matrix, index, def, tools);
      var charged := history != [] && history[|history| - 1].timestamp == timestamp;
      var turnoverCost := if charged then history[|history| - 1].Cost() else 0.0;
      var contribution := Contributions(weights, matrix[index]);
      var turnover := if charged then history[|history| - 1].turnover else 0.0;
      points := points + [Point(timestamp, Sum(contribution) - turnoverCost, turnoverCost, turnover, contribution)];
    }
  }

  // ----- What a simulation keeps -----

  /** Between rows the current weights are the last accepted ones, and they are a long-only full investment. */
  lemma {:induction false} WeightsAreAccepted(dates: seq<string>, matrix: seq<seq<real>>, initial: seq<real>,
                                              def: Definition, tools: Tools, k: nat)
    requires Runs(dates, matrix, initial, def) && k <= |dates| && Simplex(initial)
    ensures var s := Run(dates, matrix, initial, def, tools, k); s.weights == s.previous && Simplex(s.weights)
  {
    hide Simplex, Turnover, Contributions, Triggered;
    if k > 0 {
      WeightsAreAccepted(dates, matrix, initial, def, tools, k - 1);
    }
  }

  function Costs(points: seq<Point>): real
  {
    if points == [] then 0.0 else Costs(points[..|points| - 1]) + points[|points| - 1].cost
  }

  function PointTurnover(points: seq<Point>): real
  {
    if points == [] then 0.0 else PointTurnover(points[..|points| - 1]) + points[|points| - 1].turnover
  }

  function AcceptedTurnover(history: seq<Entry>): real
  {
    if history == [] then 0.0
    else
      AcceptedTurnover(history[..|history| - 1]) + history[|history| - 1].AcceptedPart()
  }

  function RejectedTurnover(history: seq<Entry>): real
  {
    if history == [] then 0.0
    else
      RejectedTurnover(history[..|history| - 1]) + history[|history| - 1].RejectedPart()
  }

  /** Where the accepted entries have led. */
  function LastAccepted(history: seq<Entry>, initial: seq<real>): seq<real>
  {
    if history == [] then initial
    else if history[|history| - 1].Accepted? then history[|history| - 1].accepted
    else LastAccepted(history[..|history| - 1], initial)
  }

  /** An entry continues from the last accepted weights, reports its own turnover, and is accepted exactly under the cap. */
  predicate EntryOk(e: Entry, from: seq<real>, def: Definition) {
    && (e.Accepted? ==>
          && e.former == from && |e.accepted| == |from| && Simplex(e.accepted)
          && e.turnover == Turnover(e.accepted, from) && e.cost == e.turnover * CostRate(def))
    && (e.Rejected? ==> def.maxTurnover.Some?)
    && (e.Accepted? <==> def.maxTurnover == None || e.turnover <= def.maxTurnover.value)
    && 0.0 <= e.turnover <= 2.0
  }

  ghost predicate HistoryOk(history: seq<Entry>, initial: seq<real>, def: Definition) {
    forall i :: 0 <= i < |history| ==> EntryOk(history[i], LastAccepted(history[..i], initial), def)
  }

  predicate Distinct(dates: seq<string>) { forall i, j :: 0 <= i < j < |dates| ==> dates[i] != dates[j] }

  /** The ledgers agree: costs are the rate times accepted turnover, and reported turnover counts rejected turnover too. */
  predicate Totals(s: State, def: Definition) {
    && Costs(s.points) == CostRate(def) * AcceptedTurnover(s.history)
    && PointTurnover(s.points) == AcceptedTurnover(s.history) + RejectedTurnover(s.history)
  }

  ghost predicate Booked(s: State, dates: seq<string>, initial: seq<real>, def: Definition, k: nat)
    requires k <= |dates|
  {
    && HistoryOk(s.history, initial, def) && s.previous == LastAccepted(s.history, initial)
    && Totals(s, def)
    && (forall i :: 0 <= i < |s.history| ==> s.history[i].timestamp in dates[..k])
  }

  lemma {:induction false} SumGaps(u: seq<real>, v: seq<real>)
    requires |u| == |v|
    requires forall j :: 0 <= j < |u| ==> u[j] >= 0.0 && v[j] >= 0.0
    ensures 0.0 <= Turnover(u, v) <= Sum(u) + Sum(v)
  {
    if u != [] {
      var n := |u| - 1;
      SumGaps(u[..n], v[..n]);
      assert Gaps(u, v)[..n] == Gaps(u[..n], v[..n]);
    }
  }

  lemma TurnoverOfSimplices(u: seq<real>, v: seq<real>)
    requires |u| == |v| && Simplex(u) && Simplex(v)
    ensures 0.0 <= Turnover(u, v) <= 2.0
  {
    SumGaps(u, v);
  }

  lemma AddEntry(history: seq<Entry>, e: Entry, initial: seq<real>, def: Definition)
    requires HistoryOk(history, initial, def) && EntryOk(e, LastAccepted(history, initial), def)
    ensures HistoryOk(history + [e], initial, def)
    ensures LastAccepted(history + [e], initial) == if e.Accepted? then e.accepted else LastAccepted(history, initial)
    ensures AcceptedTurnover(history + [e]) == AcceptedTurnover(history) + e.AcceptedPart()
    ensures RejectedTurnover(history + [e]) == RejectedTurnover(history) + e.RejectedPart()
  {
    hide EntryOk;
    assert (history + [e])[..|history|] == history;
    forall i | 0 <= i < |history|
      ensures (history + [e])[..i] == history[..i]
    {
    }
  }

  lemma AddPoint(points: seq<Point>, p: Point)
    ensures Costs(points + [p]) == Costs(points) + p.cost
    ensures PointTurnover(points + [p]) == PointTurnover(points) + p.turnover
  {
    assert (points + [p])[..|points|] == points;
  }

  /** A rebalance books one sound entry. */
  lemma RebalanceBooks(s: State, chosen: seq<real>, date: string, initial: seq<real>, def: Definition)
    requires |chosen| == |s.previous| && Simplex(chosen) && Simplex(s.previous)
    requires HistoryOk(s.history, initial, def) && s.previous == LastAccepted(s.history, initial)
    ensures var t := Rebalanced(s, chosen, date, def);
            && HistoryOk(t.history, initial, def) && t.previous == LastAccepted(t.history, initial)
            && t.history != [] && t.history[..|t.history| - 1] == s.history
            && t.history[|t.history| - 1].timestamp == date && t.points == s.points
            && EntryOk(t.history[|t.history| - 1], s.previous, def)
            && AcceptedTurnover(t.history)
               == AcceptedTurnover(s.history) + t.history[|s.history|].AcceptedPart()
            && RejectedTurnover(t.history)
               == RejectedTurnover(s.history) + t.history[|s.history|].RejectedPart()
  {
    hide HistoryOk, Turnover, AcceptedTurnover, RejectedTurnover, LastAccepted, Simplex;
    TurnoverOfSimplices(chosen, s.previous);
    var t := Rebalanced(s, chosen, date, def);
    AddEntry(s.history, t.history[|s.history|], initial, def);
  }

  lemma {:induction false} SimulationIsBooked(dates: seq<string>, matrix: seq<seq<real>>, initial: seq<real>,
                                              def: Definition, tools: Tools, k: nat)
    requires Runs(dates, matrix, initial, def) && k <= |dates| && Simplex(initial) && Distinct(dates)
    ensures Booked(Run(dates, matrix, initial, def, tools, k), dates, initial, def, k)
  {
    if k == 0 {
    } else {
      SimulationIsBooked(dates, matrix, initial, def, tools, k - 1);
      WeightsAreAccepted(dates, matrix, initial, def, tools, k - 1);
      RowIsBooked(Run(dates, matrix, initial, def, tools, k - 1), dates, matrix, initial, def, tools, k - 1);
    }
  }

  lemma RowIsBooked(s: State, dates: seq<string>, matrix: seq<seq<real>>, initial: seq<real>, def: Definition,
                    tools: Tools, k: nat)
    requires Runs(dates, matrix, initial, def) && k < |dates| && Distinct(dates)
    requires |s.weights| == |initial| && s.weights == s.previous && Simplex(s.weights)
    requires Booked(s, dates, initial, def, k)
    ensures Booked(Marked(Positioned(s, dates, matrix, k, def, tools), dates[k], matrix[k]), dates, initial, def, k + 1)
  {
    hide HistoryOk, Turnover, AcceptedTurnover, RejectedTurnover, LastAccepted, Simplex, Costs, PointTurnover,
         Contributions, ShouldRebalance, Sum;
    var t := Positioned(s, dates, matrix, k, def, tools);
    var u := Marked(t, dates[k], matrix[k]);
    AddPoint(t.points, u.points[|t.points|]);
    assert dates[..k + 1] == dates[..k] + [dates[k]];
    if Triggered(dates, k, def, tools) {
      var chosen := DynamicWeights(matrix[..k], s.weights, def, tools);
      RebalanceBooks(s, chosen, dates[k], initial, def);
      ChargeScales(CostRate(def), AcceptedTurnover(s.history), t.history[|s.history|].turnover);
    }
  }

  lemma ChargeScales(rate: real, total: real, turnover: real)
    ensures rate * (total + turnover) == rate * total + turnover * rate
    ensures rate * (total + 0.0) == rate * total
  {
  }

  /** Over a whole simulation with distinct dates the books hold: see `Booked`, `EntryOk` and `Totals`. */
  lemma CostsFollowAcceptedTurnover(dates: seq<string>, matrix: seq<seq<real>>, initial: seq<real>,
                                    def: Definition, tools: Tools)
    requires Runs(dates, matrix, initial, def) && Simplex(initial) && Distinct(dates)
    ensures var s := Run(dates, matrix, initial, def, tools, |dates|);
            && Costs(s.points) == CostRate(def) * AcceptedTurnover(s.history)
            && PointTurnover(s.points) == AcceptedTurnover(s.history) + RejectedTurnover(s.history)
            && (forall i :: 0 <= i < |s.history| && s.history[i].Accepted? ==>
                  && s.history[i].former == LastAccepted(s.history[..i], initial)
                  && |s.history[i].accepted| == |s.history[i].former|
                  && s.history[i].turnover == Turnover(s.history[i].accepted, s.history[i].former) <= 2.0
                  && (def.maxTurnover.Some? ==> s.history[i].turnover <= def.maxTurnover.value))
            && (forall i :: 0 <= i < |s.history| && s.history[i].Rejected? ==>
                  def.maxTurnover.Some? && s.history[i].turnover > def.maxTurnover.value)
  {
    hide Run, AcceptedTurnover, RejectedTurnover, LastAccepted, Simplex, Costs, PointTurnover, Turnover;
    SimulationIsBooked(dates, matrix, initial, def, tools, |dates|);
    var s := Run(dates, matrix, initial, def, tools, |dates|);
    forall i | 0 <= i < |s.history|
      ensures EntryOk(s.history[i], LastAccepted(s.history[..i], initial), def)
    {
    }
  }

  /** Each row's return is what its weights earned on its returns, less its cost; its weights are the ones then kept. */
  lemma {:induction false} RowsEarnTheirWeights(dates: seq<string>, matrix: seq<seq<real>>, initial: seq<real>,
                                                def: Definition, tools: Tools, k: nat, i: nat)
    requires Runs(dates, matrix, initial, def) && i < k <= |dates|
    ensures |Run(dates, matrix, initial, def, tools, k).points| == k
    ensures var p, w := Run(dates, matrix, initial, def, tools, k).points[i],
                        Run(dates, matrix, initial, def, tools, i + 1).weights;
            && p.timestamp == dates[i] && p.contributions == Contributions(w, matrix[i])
            && p.net == Sum(Contributions(w, matrix[i])) - p.cost
  {
    hide Contributions, Sum, Triggered, Rebalanced, DynamicWeights;
    PointPerRow(dates, matrix, initial, def, tools, k - 1);
    if i < k - 1 {
      RowsEarnTheirWeights(dates, matrix, initial, def, tools, k - 1, i);
    }
  }

  lemma {:induction false} PointPerRow(dates: seq<string>, matrix: seq<seq<real>>, initial: seq<real>,
                                       def: Definition, tools: Tools, k: nat)
    requires Runs(dates, matrix, initial, def) && k <= |dates|
    ensures |Run(dates, matrix, initial, def, tools, k).points| == k
  {
    hide Contributions, Sum, Triggered, Rebalanced, DynamicWeights;
    if k > 0 {
      PointPerRow(dates, matrix, initial, def, tools, k - 1);
    }
  }

  /**
    No lookahead: two simulations whose dates agree through row k and whose returns agree before row k hold the same
    weights at row k; if row k agrees as well, everything through row k is the same.
   */
  lemma {:induction false} NoLookahead(dates: seq<string>, other: seq<string>, matrix: seq<seq<real>>,
                                       changed: seq<seq<real>>, initial: seq<real>, def: Definition, tools: Tools, k: nat)
    requires Runs(dates, matrix, initial, def) && Runs(other, changed, initial, def)
    requires k < |dates| && k < |other| && dates[..k + 1] == other[..k + 1] && matrix[..k] == changed[..k]
    ensures Run(dates, matrix, initial, def, tools, k) == Run(other, changed, initial, def, tools, k)
    ensures Run(dates, matrix, initial, def, tools, k + 1).weights == Run(other, changed, initial, def, tools, k + 1).weights
    ensures Run(dates, matrix, initial, def, tools, k + 1).history == Run(other, changed, initial, def, tools, k + 1).history
    ensures matrix[k] == changed[k] ==>
              Run(dates, matrix, initial, def, tools, k + 1) == Run(other, changed, initial, def, tools, k + 1)
  {
    hide Contributions, Sum, Rebalanced, DynamicWeights;
    if k > 0 {
      assert dates[..k] == dates[..k + 1][..k] == other[..k + 1][..k] == other[..k];
      assert matrix[..k - 1] == matrix[..k][..k - 1] == changed[..k][..k - 1] == changed[..k - 1];
      assert matrix[k - 1] == matrix[..k][k - 1] == changed[..k][k - 1] == changed[k - 1];
      NoLookahead(dates, other, matrix, changed, initial, def, tools, k - 1);
    }
    SameTrigger(dates, other, def, tools, k);
    SamePosition(Run(dates, matrix, initial, def, tools, k), dates, other, matrix, changed, initial, def, tools, k);
  }

  lemma SameTrigger(dates: seq<string>, other: seq<string>, def: Definition, tools: Tools, k: nat)
    requires k < |dates| && k < |other| && dates[..k + 1] == other[..k + 1]
    ensures Triggered(dates, k, def, tools) == Triggered(other, k, def, tools)
    ensures dates[k] == other[k]
  {
    assert dates[k] == dates[..k + 1][k] == other[..k + 1][k] == other[k];
    if k > 0 {
      assert dates[k - 1] == dates[..k + 1][k - 1] == other[..k + 1][k - 1] == other[k - 1];
    }
  }

  lemma SamePosition(s: State, dates: seq<string>, other: seq<string>, matrix: seq<seq<real>>,
                     changed: seq<seq<real>>, initial: seq<real>, def: Definition, tools: Tools, k: nat)
    requires Runs(dates, matrix, initial, def) && Runs(other, changed, initial, def)
    requires k < |dates| && k < |other| && matrix[..k] == changed[..k] && dates[k] == other[k]
    requires Triggered(dates, k, def, tools) == Triggered(other, k, def, tools)
    requires |s.weights| == |s.previous| == |initial|
    ensures Positioned(s, dates, matrix, k, def, tools) == Positioned(s, other, changed, k, def, tools)
  {
    hide Triggered, Rebalanced, DynamicWeights;
  }
}
