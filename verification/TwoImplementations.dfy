/** The moving-average crossover written twice: as a compiled column, and bar by bar in the paper session. */
module TwoImplementations {
  import opened Common
  import opened StrategyDsl
  import opened DslCompiler
  import opened ConditionMeaning
  import opened DslMeaning
  import Execution
  import P = Portfolio
  import D = Decisions
  import opened Replay
  import opened ReplayAccounting

  predicate Warm(s: Setup, closes: seq<real>, k: nat) { s.windows.slow <= k <= |closes| }

  /** The averages a decision at bar k is taken on: those of the k closes before it. */
  function Fast(s: Setup, closes: seq<real>, k: nat): real
    requires s.windows.Valid() && Warm(s, closes, k)
  {
    D.TailMean(closes[..k], s.windows.fast)
  }

  function Slow(s: Setup, closes: seq<real>, k: nat): real
    requires s.windows.Valid() && Warm(s, closes, k)
  {
    D.TailMean(closes[..k], s.windows.slow)
  }

  // ----- The paper session -----

  predicate AllFilled(orders: seq<Execution.Order>) {
    forall i :: 0 <= i < |orders| ==> orders[i].status == Execution.Filled
  }

  ghost predicate Holding(s: Setup, st: State) { P.Held(st.book, s.symbol) > 0.0 }

  lemma {:induction false} HistoryIsCloses(s: Setup, bars: seq<Bar>)
    requires s.Valid() && Immediate(s)
    ensures Run(s, bars).history == ClosesOf(bars)
  {
    hide Trade, DrainDue, Mirrored, P.Phantom, P.Dropped, P.MarkPrice;
    if bars != [] {
      var front := bars[..|bars| - 1];
      HistoryIsCloses(s, front);
      RunStaysClean(s, front);
      RunStaysClean(s, bars);
      var event := EventOf(s, bars[|bars| - 1], |bars|);
      NothingToDrain(s, Run(s, front), event);
      TradeKeepsHistory(s, Run(s, front), event);
      assert ClosesOf(bars) == ClosesOf(front) + [bars[|bars| - 1].close];
    }
  }

  lemma TradeKeepsHistory(s: Setup, st: State, event: Execution.MarketEvent)
    requires s.Valid() && Wired(st)
    ensures Trade(s, st, event).history == st.history
  {
    hide D.OnMarket, D.Check, Execution.BrokerExecute, P.ApplyFill;
  }

  /** One bar's trade when its order, if any, is accepted. */
  lemma TradeFollowsAverages(s: Setup, st: State, event: Execution.MarketEvent)
    requires s.Valid() && Immediate(s) && Wired(st) && Clean(s, st) && event.symbol == s.symbol
    requires AllFilled(Trade(s, st, event).orders) && P.LongOnly(st.book)
    ensures AllFilled(st.orders)
    ensures |st.history| < s.windows.slow ==> Holding(s, Trade(s, st, event)) == Holding(s, st)
    ensures |st.history| >= s.windows.slow ==>
              (Holding(s, Trade(s, st, event)) <==>
               D.TailMean(st.history, s.windows.fast) > D.TailMean(st.history, s.windows.slow))
  {
    hide Execution.BrokerExecute, D.Check, D.TailMean, P.Equity, Clean, Settle, Execution.Advances, P.ApplyFill;
    var marked := st.(book := P.MarkPrice(st.book, event.symbol, event.open));
    var signal := D.OnMarket(s.windows, marked.history, event, marked.book, s.execution.tolerance);
    var u := marked.(signals := marked.signals + [signal]);
    if signal.direction != D.Hold {
      var order := D.Check(NewOrder(u, s, signal), u.book, event.open, u.seen, s.risk, s.execution.tolerance);
      CheckedFields(s, u, signal, event.open);
      assert order in Trade(s, st, event).orders || order.status != Execution.Rejected;
      if order.status != Execution.Rejected {
        WholeFill(s, order, event);
        var v := u.(orders := u.orders + [order], submitted := u.submitted + [event.sequence],
                    seen := u.seen + {D.KeyOf(order)}, requested := u.requested + order.quantity);
        var x := Execution.BrokerExecute(order, event, s.execution, s.risk.commissionBps).value;
        SettledHolding(s, v, order, x, event);
        assert forall i :: 0 <= i < |st.orders| ==> Trade(s, st, event).orders[i] == st.orders[i];
      }
    }
  }

  lemma SettledHolding(s: Setup, v: State, order: Execution.Order, x: Execution.Execution, event: Execution.MarketEvent)
    requires Wired(v) && order.id + 1 == |v.orders| && |x.fills| == 1 && x.order.filled >= 0.0
    requires Execution.Advances(order, x, s.execution.tolerance) && s.execution.tolerance >= 0.0
    requires x.order.status == Execution.Filled && x.fills[0].quantity == order.quantity > 0.0
    requires order.symbol == s.symbol && P.LongOnly(v.book)
    ensures var t := Settle(v, x, event, s.execution.tolerance);
            && t.orders == v.orders[order.id := x.order]
            && (order.side == Execution.Buy ==> Holding(s, t))
            && (order.side == Execution.Sell && order.quantity == P.Held(v.book, s.symbol) ==> !Holding(s, t))
  {
  }

  /** With every order accepted, the session holds a position after bar k exactly on the averages before it. */
  lemma {:induction false} SessionFollowsAverages(s: Setup, bars: seq<Bar>)
    requires s.Valid() && Immediate(s) && AllFilled(Run(s, bars).orders)
    ensures bars != [] ==>
              (Holding(s, Run(s, bars)) <==>
               var k := |bars| - 1;
               Warm(s, ClosesOf(bars), k) && Fast(s, ClosesOf(bars), k) > Slow(s, ClosesOf(bars), k))
    ensures |bars| <= s.windows.slow ==> !Holding(s, Run(s, bars))
  {
    hide Trade, Run, Clean, D.TailMean, DrainDue;
    if bars == [] {
      NothingHeldAtFirst(s);
    } else {
      var front, last := bars[..|bars| - 1], bars[|bars| - 1];
      var st, event := Run(s, front), EventOf(s, last, |bars|);
      RunStaysClean(s, front);
      PromptAccounting(s, front);
      HistoryIsCloses(s, front);
      LastStep(s, bars);
      TradeFollowsAverages(s, st, event);
      SessionFollowsAverages(s, front);
      assert ClosesOf(bars)[..|front|] == ClosesOf(front);
    }
  }

  lemma NothingHeldAtFirst(s: Setup)
    requires s.Valid()
    ensures !Holding(s, Run(s, []))
  {
  }

  lemma LastStep(s: Setup, bars: seq<Bar>)
    requires s.Valid() && Immediate(s) && bars != []
    ensures var st, event := Run(s, bars[..|bars| - 1]), EventOf(s, bars[|bars| - 1], |bars|);
            && Run(s, bars).orders == Trade(s, st, event).orders
            && Holding(s, Run(s, bars)) == Holding(s, Trade(s, st, event))
  {
    var st, event := Run(s, bars[..|bars| - 1]), EventOf(s, bars[|bars| - 1], |bars|);
    RunStaysClean(s, bars[..|bars| - 1]);
    NothingToDrain(s, st, event);
    TradeStaysClean(s, st, event);
    hide Trade, DrainDue;
  }

  // ----- The compiled column -----

  predicate LegacyWindows(s: Setup) { 2 <= s.windows.fast < s.windows.slow <= 500 }

  lemma CrossoverIsValid(fast: nat, slow: nat)
    requires 2 <= fast < slow <= 500
    ensures var spec := CrossoverSpec(fast, slow);
            WellFormed(spec) && Problems(spec) == [] && ReadsUnshadowed(spec)
  {
    var spec := CrossoverSpec(fast, slow);
    assert spec.indicators[0].name == "fast_ma" && spec.indicators[1].name == "slow_ma";
    assert Declares(spec.indicators, "fast_ma") && Declares(spec.indicators, "slow_ma");
    WindowOfName(spec.indicators, 0);
    WindowOfName(spec.indicators, 1);
    DifferentNames();
    assert spec.entry != spec.exit;
    assert PartsComplexity([]) == 0;
    ValidIffMeaningful(spec);
  }

  lemma DifferentNames()
    ensures "fast_ma" != "slow_ma" && "fast_ma" != "close" && "slow_ma" != "close"
  {
    assert "fast_ma"[0] == 'f' && "slow_ma"[0] == 's' && "close"[0] == 'c';
  }

  /** The compiled rule at the row before bar k: enter above, leave below, and neither on a tie or before both exist. */
  lemma CrossoverRow(s: Setup, closes: seq<real>, k: nat)
    requires s.windows.Valid() && LegacyWindows(s) && 0 < k <= |closes|
    ensures var spec := CrossoverSpec(s.windows.fast, s.windows.slow);
            && WellFormed(spec)
            && var row := AverageRow(spec, closes, k - 1);
               && (EntryFires(spec, row) <==> Warm(s, closes, k) && Fast(s, closes, k) > Slow(s, closes, k))
               && (ExitFires(spec, row) <==> Warm(s, closes, k) && Fast(s, closes, k) < Slow(s, closes, k))
  {
    hide D.TailMean, SmaAt, Problems, EntryFires, ExitFires, AverageRow;
    CrossoverIsValid(s.windows.fast, s.windows.slow);
    var spec := CrossoverSpec(s.windows.fast, s.windows.slow);
    var row := AverageRow(spec, closes, k - 1);
    NamedAverage(spec, closes, k - 1, 0);
    NamedAverage(spec, closes, k - 1, 1);
    CrossoverRules(spec, row);
    AverageBefore(closes, s.windows.fast, k);
    AverageBefore(closes, s.windows.slow, k);
  }

  lemma CrossoverRules(spec: Spec, row: Row)
    requires WellFormed(spec) && exists fast, slow :: spec == CrossoverSpec(fast, slow)
    ensures var fast, slow := Lookup(row, "fast_ma"), Lookup(row, "slow_ma");
            && (EntryFires(spec, row) <==> fast.Some? && slow.Some? && fast.value > slow.value)
            && (ExitFires(spec, row) <==> fast.Some? && slow.Some? && fast.value < slow.value)
  {
  }

  lemma AverageBefore(closes: seq<real>, window: nat, k: nat)
    requires 0 < k <= |closes| && window > 0
    ensures SmaAt(closes, window, k - 1) == if k < window then None else Some(D.TailMean(closes[..k], window))
  {
    if k >= window {
      assert closes[..k][k - window..] == closes[k - window..k];
    }
  }

  lemma {:induction false} AutomatonIsZeroOne(s: Setup, closes: seq<real>, k: nat)
    requires s.windows.Valid() && LegacyWindows(s) && k <= |closes|
    requires WellFormed(CrossoverSpec(s.windows.fast, s.windows.slow))
    ensures var p := Automaton(CrossoverSpec(s.windows.fast, s.windows.slow), closes, k);
            && (p == 0.0 || p == 1.0) && (k < s.windows.slow ==> p == 0.0)
            && (Warm(s, closes, k) && Fast(s, closes, k) > Slow(s, closes, k) ==> p == 1.0)
            && (Warm(s, closes, k) && Fast(s, closes, k) < Slow(s, closes, k) ==> p == 0.0)
  {
    hide EntryFires, ExitFires, AverageRow, Fast, Slow;
    if k > 0 {
      AutomatonIsZeroOne(s, closes, k - 1);
      CrossoverRow(s, closes, k);
    }
  }

  /**
    The two implementations hold the same position at bar k exactly unless the averages tie while the column is long:
    there the session leaves and the column stays. So with no such tie they agree on every bar.
   */
  lemma TwoImplementationsAgree(s: Setup, bars: seq<Bar>, k: nat)
    requires s.Valid() && Immediate(s) && LegacyWindows(s) && k < |bars| <= 100000
    requires AllFilled(Run(s, bars[..k + 1]).orders)
    ensures var closes, spec := ClosesOf(bars), CrossoverSpec(s.windows.fast, s.windows.slow);
            && WellFormed(spec)
            && var r := Evaluate(spec, closes);
               && r.Ok? && |r.value| == |bars| && (r.value[k] == 0.0 || r.value[k] == 1.0)
               && ((Holding(s, Run(s, bars[..k + 1])) <==> r.value[k] == 1.0) <==>
                   !(Warm(s, closes, k) && Fast(s, closes, k) == Slow(s, closes, k) && r.value[k] == 1.0))
  {
    hide Run, Evaluate, Automaton, D.TailMean, Problems;
    var closes, spec := ClosesOf(bars), CrossoverSpec(s.windows.fast, s.windows.slow);
    CrossoverIsValid(s.windows.fast, s.windows.slow);
    CompilerCorrect(spec, closes);
    AutomatonIsZeroOne(s, closes, k);
    SessionFollowsAverages(s, bars[..k + 1]);
    assert ClosesOf(bars[..k + 1])[..k] == closes[..k];
  }
}
