/** Inputs that validation accepts, and that show where a law of the strategies or of the backtest stops. */
module StrategyExamples {
  import opened Common
  import opened StrategyDsl
  import opened DslCompiler
  import opened ConditionMeaning
  import opened DslMeaning
  import opened ShadowedClose
  import opened TwoImplementations
  import Execution
  import P = Portfolio
  import D = Decisions
  import opened Replay
  import opened ReplayAccounting
  import X = ReplayExamples
  import B = Backtest

  // ----- A tie of the averages while the column is long -----

  /** After a rise, a close that makes the two averages equal. */
  const TIE: seq<real> := [1.0, 2.0, 1.0, 3.0, 1.0]

  ghost predicate Whole(s: Setup) { X.IsExample(s, Execution.Ideal, 0, 0.5) }

  lemma TieAverages()
    ensures TIE[..3] == X.Spike(3) && X.Rising(TIE[..3])
    ensures !X.Rising(TIE[..4]) && D.TailMean(TIE[..4], 2) == D.TailMean(TIE[..4], 3)
  {
    X.SpikeRises(3);
    assert TIE[..3] == X.Spike(3);
    X.Tails(TIE[..4]);
  }

  /** A whole fill at one, without latency. */
  lemma WholeSubmit(s: Setup, st: State, order: Execution.Order, event: Execution.MarketEvent)
    requires Whole(s) && Wired(st) && !st.failed && order.id + 1 == |st.orders| && order.symbol == "X"
    requires order.filled == 0.0 && order.averagePrice == 0.0 && order.status == Execution.Submitted && order.quantity > 0.0
    requires event.open == 1.0 && event.lastPrice == None
    requires P.Held(st.book, "X") >= 0.0
    requires P.Held(st.book, "X") > 0.0 ==>
               st.book.positions == map["X" := P.Position(P.Held(st.book, "X"), 1.0)]
    ensures var t := Submit(s, st, order, event);
            && !t.failed && t.pending == st.pending && t.seen == st.seen && t.history == st.history
            && |t.orders| == |st.orders| && t.orders[..order.id] == st.orders[..order.id]
            && t.orders[order.id].status == Execution.Filled
            && t.book.cash == st.book.cash + (if order.side == Execution.Buy then -order.quantity else order.quantity)
            && (order.side == Execution.Buy && st.book.positions == map[] ==>
                  t.book.positions == map["X" := P.Position(order.quantity, 1.0)])
            && (order.side == Execution.Sell && P.Held(st.book, "X") <= order.quantity ==> P.Held(t.book, "X") == 0.0)
  {
    X.ExecutesAtOne(s, s.execution, order, event, order.quantity);
    hide Execution.BrokerExecute, P.ApplyFill, P.Held;
    var x := Execution.BrokerExecute(order, event, s.execution, s.risk.commissionBps).value;
    X.FillAtOne(st.book, x.fills[0], s.execution.tolerance);
  }

  /** What matters about this session between bars. */
  ghost predicate Runs(st: State, cash: real, held: real, history: seq<real>, orders: nat) {
    && !st.failed && Wired(st) && st.pending == [] && st.history == history
    && st.book.cash == cash && P.Held(st.book, "X") == held
    && (held > 0.0 ==> st.book.positions == map["X" := P.Position(held, 1.0)])
    && |st.orders| == orders && AllFilled(st.orders)
    && forall k :: k in st.seen ==> k.createdAt <= |history|
  }

  lemma TieBuys(s: Setup, st: State, event: Execution.MarketEvent)
    requires Whole(s) && X.Watching(st, TIE[..3]) && event == EventOf(s, X.BarWith(4, 3.0, 100), 4)
    ensures var t := Trade(s, st, event);
            && !t.failed && Wired(t) && t.pending == [] && t.history == TIE[..3] && t.book.cash == 50.0
            && t.book.positions == map["X" := P.Position(50.0, 1.0)] && |t.orders| == 1 && AllFilled(t.orders)
            && forall k :: k in t.seen ==> k.createdAt <= 4
  {
    hide D.TailMean, D.OnMarket, D.Check, Trade, Submit;
    TieAverages();
    X.TradeBuys(s, st, event);
    var o := X.OrderFor(st, Execution.Buy, 50.0, event);
    var signal := D.Signal(D.BuySignal, 50.0, event.timestamp);
    WholeSubmit(s, X.Entered(st, signal, o, event), o, event);
  }

  lemma TieSells(s: Setup, st: State, event: Execution.MarketEvent)
    requires Whole(s) && Runs(st, 50.0, 50.0, TIE[..4], 1) && event == EventOf(s, X.BarWith(5, 1.0, 100), 5)
    ensures var t := Trade(s, st, event);
            !t.failed && |t.orders| == 2 && AllFilled(t.orders) && P.Held(t.book, "X") == 0.0
  {
    hide D.TailMean, D.OnMarket, D.Check, Trade, Submit;
    TieAverages();
    X.TradeExits(s, st, event, 50.0);
    var o := X.OrderFor(st, Execution.Sell, 50.0, event);
    var u := X.Entered(st, D.Signal(D.ExitSignal, 50.0, event.timestamp), o, event);
    WholeSubmit(s, u, o, event);
    var t := Trade(s, st, event);
    forall i | 0 <= i < |t.orders|
      ensures t.orders[i].status == Execution.Filled
    {
      if i == 0 { assert t.orders[..1][0] == u.orders[..1][0] == st.orders[0]; }
    }
  }

  lemma TieSession(s: Setup)
    requires Whole(s)
    ensures var st := Run(s, X.BarsOf(TIE, 0)); AllFilled(st.orders) && |st.orders| == 2 && P.Held(st.book, "X") == 0.0
  {
    hide Trade, DrainDue, Step, Run, X.BarsOf, D.TailMean;
    X.Watched(s, TIE[..3], 0);
    var three, four := X.BarsOf(TIE[..3], 0), X.BarsOf(TIE[..4], 0);
    assert TIE[..4][..3] == TIE[..3] && TIE[..5] == TIE;
    X.LastBar(s, TIE[..4], 0);
    X.LastBar(s, TIE, 0);
    var st, event := Run(s, three), EventOf(s, X.BarWith(4, 3.0, 100), 4);
    NothingToDrain(s, st, event);
    TieBuys(s, st, event);
    X.Closes(s, st, X.BarWith(4, 3.0, 100), 4);
    assert TIE[..3] + [3.0] == TIE[..4];
    var next, last := Run(s, four), EventOf(s, X.BarWith(5, 1.0, 100), 5);
    NothingToDrain(s, next, last);
    TieSells(s, next, last);
    X.Closes(s, next, X.BarWith(5, 1.0, 100), 5);
  }

  /** The column stays long on the tie: it was set on the rise, and a tie neither enters nor leaves. */
  lemma TieColumn(s: Setup)
    requires Whole(s)
    ensures var spec := CrossoverSpec(2, 3);
            && WellFormed(spec) && Evaluate(spec, TIE).Ok? && |Evaluate(spec, TIE).value| == 5
            && Evaluate(spec, TIE).value[4] == 1.0
  {
    hide Evaluate, D.TailMean, Problems, EntryFires, ExitFires, AverageRow;
    var spec := CrossoverSpec(2, 3);
    CrossoverIsValid(2, 3);
    CompilerCorrect(spec, TIE);
    TieAverages();
    AutomatonIsZeroOne(s, TIE, 3);
    CrossoverRow(s, TIE, 4);
  }

  /**
    A legal session and its closes on which the two implementations part: every order fills, the averages before the
    fifth bar are equal, the session has left, and the compiled column is still long.
   */
  lemma {:induction false} TieSeparates(s: Setup)
    requires Whole(s)
    ensures var bars, spec := X.BarsOf(TIE, 0), CrossoverSpec(2, 3);
            && s.Legal() && LegalBars(bars) && ClosesOf(bars) == TIE && AllFilled(Run(s, bars).orders)
            && Fast(s, TIE, 4) == Slow(s, TIE, 4)
            && !Holding(s, Run(s, bars))
            && WellFormed(spec) && Evaluate(spec, TIE).Ok? && |Evaluate(spec, TIE).value| == 5
            && Evaluate(spec, TIE).value[4] == 1.0
  {
    hide Run, Evaluate, D.TailMean;
    X.ExamplesAreLegal(s, Execution.Ideal, 0, 0.5);
    X.BarsAreLegal(TIE, 0);
    TieSession(s);
    TieColumn(s);
    TieAverages();
  }

  // ----- An indicator named "close" -----

  /** The second indicator reads the first in place of the closes. */
  const SHADOWED: Spec :=
    Spec([Indicator("close", 2), Indicator("slow", 3)], Comparison("close", Gt, "slow"), Comparison("close", Lt, "slow"),
         1.0, [], 100000, 16, 32)

  lemma ShadowedIsValid()
    ensures WellFormed(SHADOWED) && Problems(SHADOWED) == [] && !ReadsUnshadowed(SHADOWED)
  {
    assert "close"[0] != "slow"[0];
    var named := SHADOWED.indicators;
    assert named[0].name == "close" && named[1].name == "slow";
    assert Declares(named, "close") && Declares(named, "slow");
    WindowOfName(named, 0);
    WindowOfName(named, 1);
    assert PartsComplexity([]) == 0;
    ValidIffMeaningful(SHADOWED);
    assert Uses(SHADOWED, named[1].name) && !Unshadowed(named, 1);
  }

  /**
    A specification that validation accepts, with an indicator named "close", and four closes for which the compiled
    position is not what the named averages say.
   */
  lemma {:induction false} ShadowedCloseMisleads()
    ensures WellFormed(SHADOWED) && Problems(SHADOWED) == []
    ensures var closes := [4.0, 2.0, 7.0, 4.0];
            var r := Evaluate(SHADOWED, closes);
            r.Ok? && |r.value| == 4 && r.value[3] == 0.0 && Automaton(SHADOWED, closes, 3) == 1.0
  {
    hide Problems, Automaton, Latch, FrameOf, Evaluate;
    ShadowedIsValid();
    assert Turn(3) == [4.0, 2.0, 7.0, 4.0];
    StaysOut(SHADOWED, 0, 1, 3);
    RiseEnters(SHADOWED, 0, 1);
    EvaluatesToLatch(SHADOWED, Turn(3), 3);
  }

  // ----- Costs that help -----

  /** The backtest's bars for these closes: opens of one, and the compiled positions. */
  function Backtested(closes: seq<real>, positions: seq<real>): (bars: seq<B.Bar>)
    requires |positions| == |closes|
    ensures |bars| == |closes|
  {
    seq(|closes|, i requires 0 <= i < |closes| => B.Bar(1.0, closes[i], positions[i]))
  }

  /** The compiled positions of the spike: three rows of warm-up, one row in the market, one out of it. */
  lemma SpikePositions()
    ensures var r := Evaluate(CrossoverSpec(2, 3), X.Spike(5));
            WellFormed(CrossoverSpec(2, 3)) && r == Ok([0.0, 0.0, 0.0, 1.0, 0.0])
  {
    hide Evaluate, D.TailMean, Problems, Automaton, X.Spike;
    var s := X.Example(Execution.Ideal, 0, 0.5, x => x);
    var spec, closes := CrossoverSpec(2, 3), X.Spike(5);
    CrossoverIsValid(2, 3);
    CompilerCorrect(spec, closes);
    forall k | 0 <= k <= 4
      ensures Automaton(spec, closes, k) == if k == 3 then 1.0 else 0.0
    {
      AutomatonIsZeroOne(s, closes, k);
      if k >= 3 {
        SpikeAverages(k);
      }
    }
    var r := Evaluate(spec, closes);
    assert r.value == [r.value[0], r.value[1], r.value[2], r.value[3], r.value[4]];
  }

  lemma SpikeAverages(k: nat)
    requires k == 3 || k == 4
    ensures k == 3 ==> D.TailMean(X.Spike(5)[..k], 2) > D.TailMean(X.Spike(5)[..k], 3)
    ensures k == 4 ==> D.TailMean(X.Spike(5)[..k], 2) < D.TailMean(X.Spike(5)[..k], 3)
  {
    X.Tails(X.Spike(5)[..k]);
  }

  /**
    The condition of the cost law is needed: at any raised rates whose round trip keeps more, a backtest of the
    registered strategy on five bars, its positions compiled from their closes, ends with more equity at the raised
    rates.
   */
  lemma {:induction false} CostsCanHelp(capital: real, c: B.Costs, d: B.Costs)
    requires B.Raised(c, d) && B.Kept(c) < B.Kept(d) && capital > 0.0
    ensures var spec, closes := CrossoverSpec(2, 3), X.Spike(5);
            && WellFormed(spec) && Evaluate(spec, closes).Ok? && |Evaluate(spec, closes).value| == 5
            && var bars := Backtested(closes, Evaluate(spec, closes).value);
               && B.Priced(bars) && |B.Run(capital, bars, c).equity| == |B.Run(capital, bars, d).equity| == 5
               && B.Run(capital, bars, c).equity[4] < B.Run(capital, bars, d).equity[4]
  {
    hide B.Run, B.Kept, Evaluate;
    SpikePositions();
    var bars := Backtested(X.Spike(5), [0.0, 0.0, 0.0, 1.0, 0.0]);
    B.RoundTripKeeps(capital, bars, c);
    B.RoundTripKeeps(capital, bars, d);
    MoreOfMore(capital, B.Kept(c), B.Kept(d));
  }

  lemma MoreOfMore(capital: real, k: real, l: real)
    requires capital > 0.0 && k < l
    ensures capital * k < capital * l
  {
  }

  lemma PerShare(fee: real, slip: real)
    ensures B.PerSale(B.Costs(fee, slip)) == (1.0 - slip) * (1.0 - fee)
    ensures B.PerPurchase(B.Costs(fee, slip)) == (1.0 + slip) * (1.0 + fee)
  {
  }

  /** Such rates exist: at a fee of 100% a round trip keeps nothing; at 200% of both, a ninth comes back. */
  lemma RatesAboveOne()
    ensures var c, d := B.Costs(1.0, 0.0), B.Costs(2.0, 2.0);
            B.Raised(c, d) && B.Kept(c) == 0.0 && B.Kept(d) == 1.0 / 9.0
  {
    hide B.PerSale, B.PerPurchase;
    PerShare(1.0, 0.0);
    PerShare(2.0, 2.0);
  }
}
