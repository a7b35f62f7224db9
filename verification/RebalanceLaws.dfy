/** When a portfolio is rebalanced, and what turning it over means. */
module RebalanceLaws {
  import opened Common
  import opened Rebalance

  // ----- The schedule -----

  /** The year and month of an ISO date are its first seven characters; shorter strings stand for themselves. */
  function Month(date: string): string { date[..MinInt(7, |date|)] }

  /** A row that opens a new period: monthly a new month, weekly a new ISO week, compared with the row before. */
  predicate OpensPeriod(dates: seq<string>, i: nat, frequency: Frequency, tools: Tools)
    requires i < |dates|
  {
    i > 0
    && match frequency
       case Monthly => Month(dates[i]) != Month(dates[i - 1])
       case Weekly => tools.week(dates[i]) != tools.week(dates[i - 1])
  }

  /** The rows of the first k that rebalance: those that open a period with a whole lookback behind them. */
  function DueRows(dates: seq<string>, def: Definition, tools: Tools, k: nat): (rows: seq<nat>)
    requires k <= |dates|
    ensures forall i :: 0 <= i < |rows| ==> rows[i] < k
  {
    if k == 0 then []
    else
      DueRows(dates, def, tools, k - 1)
      + if def.lookback <= k - 1 && OpensPeriod(dates, k - 1, def.frequency, tools) then [k - 1] else []
  }

  lemma OpensIsTriggered(dates: seq<string>, k: nat, def: Definition, tools: Tools)
    requires k < |dates|
    ensures Triggered(dates, k, def, tools) <==> def.lookback <= k && OpensPeriod(dates, k, def.frequency, tools)
  {
  }

  /** The history has exactly one entry for each row that is due, in order, with that row's date. */
  lemma {:induction false} HistoryFollowsSchedule(dates: seq<string>, matrix: seq<seq<real>>, initial: seq<real>,
                                                  def: Definition, tools: Tools, k: nat)
    requires Runs(dates, matrix, initial, def) && k <= |dates|
    ensures var history, rows := Run(dates, matrix, initial, def, tools, k).history, DueRows(dates, def, tools, k);
            |history| == |rows| && forall i :: 0 <= i < |rows| ==> history[i].timestamp == dates[rows[i]]
  {
    hide Contributions, Sum, DynamicWeights, ShouldRebalance, OpensPeriod, Triggered, Positioned;
    if k > 0 {
      HistoryGrows(Run(dates, matrix, initial, def, tools, k - 1), dates, matrix, k - 1, def, tools);
      HistoryFollowsSchedule(dates, matrix, initial, def, tools, k - 1);
      OpensIsTriggered(dates, k - 1, def, tools);
    }
  }

  lemma HistoryGrows(s: State, dates: seq<string>, matrix: seq<seq<real>>, k: nat, def: Definition, tools: Tools)
    requires s.weights != [] && |s.previous| == |s.weights| && IsMatrix(matrix, |s.weights|)
    requires k < |dates| == |matrix| && def.lookback >= 2
    ensures var t := Positioned(s, dates, matrix, k, def, tools);
            && (!Triggered(dates, k, def, tools) ==> t.history == s.history)
            && (Triggered(dates, k, def, tools) ==>
                  && |t.history| == |s.history| + 1 && t.history[..|s.history|] == s.history
                  && t.history[|s.history|].timestamp == dates[k])
  {
    hide DynamicWeights, ShouldRebalance, Turnover;
  }

  /** Which rows are due, one by one. */
  lemma {:induction false} DueRowsAre(dates: seq<string>, def: Definition, tools: Tools, k: nat)
    requires k <= |dates|
    ensures forall i :: i in DueRows(dates, def, tools, k) <==>
                        0 <= i < k && def.lookback <= i && OpensPeriod(dates, i, def.frequency, tools)
    ensures forall i, j :: 0 <= i < j < |DueRows(dates, def, tools, k)| ==>
              DueRows(dates, def, tools, k)[i] < DueRows(dates, def, tools, k)[j]
  {
    hide OpensPeriod;
    if k > 0 {
      DueRowsAre(dates, def, tools, k - 1);
    }
  }

  /** At a due row the weights become the method's choice, unless the cap rejects it; at any other row they stay. */
  lemma WeightsMove(dates: seq<string>, matrix: seq<seq<real>>, initial: seq<real>, def: Definition, tools: Tools, k: nat)
    requires Runs(dates, matrix, initial, def) && k < |dates| && Simplex(initial)
    ensures var before, after := Run(dates, matrix, initial, def, tools, k), Run(dates, matrix, initial, def, tools, k + 1);
            var due := def.lookback <= k && OpensPeriod(dates, k, def.frequency, tools);
            && (!due ==> after.weights == before.weights && after.history == before.history)
            && (due ==>
                  var chosen := DynamicWeights(matrix[..k], before.weights, def, tools);
                  var moved := 2.0 * Bought(chosen, before.weights);
                  && |after.history| == |before.history| + 1 && after.history[..|before.history|] == before.history
                  && var e := after.history[|before.history|];
                     && e.timestamp == dates[k] && e.turnover == moved
                     && (e.Rejected? <==> def.maxTurnover.Some? && moved > def.maxTurnover.value)
                     && (e.Rejected? ==> after.weights == before.weights)
                     && (e.Accepted? ==>
                           && after.weights == chosen && e.former == before.weights && e.accepted == chosen
                           && e.cost == moved * def.costBps / 10000.0))
  {
    hide Contributions, Sum, DynamicWeights, ShouldRebalance, OpensPeriod, Simplex, Turnover, Charge, CostRate, Bought;
    WeightsAreAccepted(dates, matrix, initial, def, tools, k);
    OpensIsTriggered(dates, k, def, tools);
    var before := Run(dates, matrix, initial, def, tools, k);
    if def.lookback <= k && OpensPeriod(dates, k, def.frequency, tools) {
      var chosen := DynamicWeights(matrix[..k], before.weights, def, tools);
      TurnoverIsTwiceBought(chosen, before.weights);
      ChargeIs(2.0 * Bought(chosen, before.weights), def);
    }
  }

  lemma ChargeIs(turnover: real, def: Definition)
    ensures Charge(turnover, CostRate(def)) == turnover * def.costBps / 10000.0
  {
  }

  // ----- Turnover -----

  function Increases(u: seq<real>, v: seq<real>): (r: seq<real>)
    requires |u| == |v|
    ensures |r| == |u|
  {
    seq(|u|, j requires 0 <= j < |u| => if u[j] > v[j] then u[j] - v[j] else 0.0)
  }

  /** The share of the portfolio that has to be bought to go from v to u. */
  function Bought(u: seq<real>, v: seq<real>): real
    requires |u| == |v|
  {
    Sum(Increases(u, v))
  }

  lemma {:induction false} TurnoverSplits(u: seq<real>, v: seq<real>)
    requires |u| == |v|
    ensures Turnover(u, v) == 2.0 * Bought(u, v) - (Sum(u) - Sum(v))
  {
    if u != [] {
      var n := |u| - 1;
      TurnoverSplits(u[..n], v[..n]);
      assert Gaps(u, v)[..n] == Gaps(u[..n], v[..n]) && Increases(u, v)[..n] == Increases(u[..n], v[..n]);
    }
  }

  /** Between two full investments, what is sold is what is bought: turnover counts both. */
  lemma TurnoverIsTwiceBought(u: seq<real>, v: seq<real>)
    requires |u| == |v| && Simplex(u) && Simplex(v)
    ensures Turnover(u, v) == 2.0 * Bought(u, v)
  {
    hide Sum;
    TurnoverSplits(u, v);
  }

  // ----- Points -----

  /** A row's contributions are weight times return, strategy by strategy; its return is their sum less its cost. */
  lemma {:induction false} PointsEarn(dates: seq<string>, matrix: seq<seq<real>>, initial: seq<real>, def: Definition,
                                      tools: Tools, i: nat)
    requires Runs(dates, matrix, initial, def) && i < |dates| && Distinct(dates)
    ensures |Run(dates, matrix, initial, def, tools, |dates|).points| == |dates|
    ensures var p, w := Run(dates, matrix, initial, def, tools, |dates|).points[i],
                        Run(dates, matrix, initial, def, tools, i + 1).weights;
            && p.timestamp == dates[i] && |p.contributions| == |w|
            && (forall j :: 0 <= j < |w| ==> p.contributions[j] == matrix[i][j] * w[j])
            && p.net == Sum(p.contributions) - p.cost
  {
    hide Run, Sum;
    RowsEarnTheirWeights(dates, matrix, initial, def, tools, |dates|, i);
  }

  lemma {:induction false} PointStays(dates: seq<string>, matrix: seq<seq<real>>, initial: seq<real>, def: Definition,
                                      tools: Tools, k: nat, i: nat)
    requires Runs(dates, matrix, initial, def) && i < k <= |dates|
    ensures |Run(dates, matrix, initial, def, tools, k).points| == k
    ensures |Run(dates, matrix, initial, def, tools, i + 1).points| == i + 1
    ensures Run(dates, matrix, initial, def, tools, k).points[i] == Run(dates, matrix, initial, def, tools, i + 1).points[i]
  {
    hide Contributions, Sum, Triggered, Rebalanced, DynamicWeights;
    PointPerRow(dates, matrix, initial, def, tools, k - 1);
    PointPerRow(dates, matrix, initial, def, tools, i);
    if i < k - 1 {
      PointStays(dates, matrix, initial, def, tools, k - 1, i);
    }
  }

  /** The cost and the turnover of a rebalance, accepted or not, fall on its own row, and on no other. */
  lemma CostsFallOnTheirRow(dates: seq<string>, matrix: seq<seq<real>>, initial: seq<real>, def: Definition,
                            tools: Tools, i: nat)
    requires Runs(dates, matrix, initial, def) && i < |dates| && Distinct(dates)
    ensures |Run(dates, matrix, initial, def, tools, |dates|).points| == |dates|
    ensures var p, history := Run(dates, matrix, initial, def, tools, |dates|).points[i],
                              Run(dates, matrix, initial, def, tools, i + 1).history;
            if def.lookback <= i && OpensPeriod(dates, i, def.frequency, tools)
            then
              && history != [] && var e := history[|history| - 1];
                 p.turnover == e.turnover && p.cost == if e.Accepted? then e.cost else 0.0
            else p.cost == 0.0 && p.turnover == 0.0
  {
    hide Contributions, Sum, DynamicWeights, ShouldRebalance, OpensPeriod, Positioned, Triggered;
    PointStays(dates, matrix, initial, def, tools, |dates|, i);
    PointPerRow(dates, matrix, initial, def, tools, i);
    OpensIsTriggered(dates, i, def, tools);
    var before := Run(dates, matrix, initial, def, tools, i);
    HistoryGrows(before, dates, matrix, i, def, tools);
    HistoryFollowsSchedule(dates, matrix, initial, def, tools, i);
    KeepsPoints(before, dates, matrix, i, def, tools);
    assert before.history != [] ==> before.history[|before.history| - 1].timestamp != dates[i];
  }

  lemma KeepsPoints(s: State, dates: seq<string>, matrix: seq<seq<real>>, k: nat, def: Definition, tools: Tools)
    requires s.weights != [] && |s.previous| == |s.weights| && IsMatrix(matrix, |s.weights|)
    requires k < |dates| == |matrix| && def.lookback >= 2
    ensures Positioned(s, dates, matrix, k, def, tools).points == s.points
  {
    hide DynamicWeights;
  }
}
