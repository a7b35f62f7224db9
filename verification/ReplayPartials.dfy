/** Partial fills alone can break the balance of the books: a session without latency that sells more than it holds. */
module ReplayPartials {
  import opened Common
  import opened Execution
  import opened Portfolio
  import opened Decisions
  import opened Replay
  import opened ReplayLiquidity
  import opened ReplayExamples

  ghost predicate Partial(s: Setup) { IsExample(s, Microstructure, 0, 0.1) }

  /** What an order for so much gets of a bar's tenth. */
  function Granted(wanted: real, volume: int): real { MinReal(wanted, volume as real * 0.1) }

  /** What is left of an order for the next bar, unless it counts as filled. */
  function Rest(due: int, quantity: real, filled: real): seq<Ask> {
    if quantity - filled <= 0.000000001 then [] else [Ask(due, Sell, quantity, filled)]
  }

  /** A sale at one of a position bought at one, leaving nothing or more than the tolerance. */
  lemma SaleAtOne(b: Book, f: Fill, held: real, tolerance: real)
    requires f.side == Sell && f.symbol == "X" && f.price == 1.0 && f.gross == f.quantity > 0.0 && f.fees == 0.0
    requires Held(b, "X") == held >= 0.0 && (held > 0.0 ==> b.positions == map["X" := Position(held, 1.0)])
    requires tolerance > 0.0 && (held <= f.quantity || held - f.quantity > tolerance)
    ensures var c, left := ApplyFill(b, f, tolerance), MaxReal(0.0, held - f.quantity);
            && c.cash == b.cash + f.quantity && c.realized == b.realized && Held(c, "X") == left
            && (left > 0.0 ==> c.positions == map["X" := Position(left, 1.0)])
  {
    hide Gain;
    NothingGained(PositionOf(b, "X"), f);
    if held - f.quantity > 0.0 {
      assert b.positions["X" := Position(held - f.quantity, 1.0)] == map["X" := Position(held - f.quantity, 1.0)];
    }
  }

  lemma NothingGained(p: Position, f: Fill)
    requires f.price == 1.0 && f.fees == 0.0 && f.quantity > 0.0 && (p.quantity == 0.0 || p.average == 1.0)
    ensures Gain(p, f) == 0.0
  {
    if p.quantity == 0.0 {
      assert Sold(p, f) == 0.0;
    }
  }

  /** One sale is settled: the book and the queue after it. */
  lemma SettlesSale(s: Setup, st: State, order: Order, c: Config, event: MarketEvent, held: real, q: real, asks: seq<Ask>,
                    history: seq<real>, now: int)
    requires Partial(s) && Stands(st, st.book.cash, held, history, asks, now)
    requires order.id < |st.orders| && order.symbol == "X" && order.side == Sell && order.Executable()
    requires order.filled >= 0.0 && order.averagePrice == (if order.filled == 0.0 then 0.0 else 1.0)
    requires c == s.execution.(maxParticipation := c.maxParticipation)
    requires event.open == 1.0 && event.lastPrice == None
    requires 0.0 < q == MinReal(order.Unfilled(), event.volume as real * c.maxParticipation)
    requires held <= q || held - q > 0.000000001
    ensures var r := BrokerExecute(order, event, c, s.risk.commissionBps);
            && r.Ok?
            && var t := Settle(st, r.value, event, s.execution.tolerance);
               Stands(t, st.book.cash + q, MaxReal(0.0, held - q), history,
                      asks + Rest(event.sequence + 1, order.quantity, order.filled + q), now)
  {
    hide BrokerExecute, ApplyFill, Held;
    ExecutesAtOne(s, c, order, event, q);
    var x := BrokerExecute(order, event, c, s.risk.commissionBps).value;
    SaleAtOne(st.book, x.fills[0], held, s.execution.tolerance);
  }

  /** The one due order sells what the bar's liquidity allows. */
  lemma DrainsSale(s: Setup, st: State, event: MarketEvent, held: real, filled: real, quantity: real, history: seq<real>)
    requires Partial(s) && event.open == 1.0 && event.lastPrice == None && event.volume > 0
    requires Stands(st, st.book.cash, held, history, [Ask(event.sequence, Sell, quantity, filled)], event.timestamp)
    requires quantity - filled > 0.0
    requires var q := Granted(quantity - filled, event.volume); held <= q || held - q > 0.000000001
    ensures var q := Granted(quantity - filled, event.volume);
            Stands(DrainDue(s, st, event), st.book.cash + q, MaxReal(0.0, held - q), history,
                   Rest(event.sequence + 1, quantity, filled + q), event.timestamp)
  {
    hide BrokerExecute, Settle, DrainDue, Held, Rest;
    var order, rest := st.pending[0].order, st.(pending := st.pending[1..]);
    var own := OwnConfig(s.execution, event.volume as real * 0.1, event.volume);
    ShareOfVolume(event.volume);
    HeadDue(s, st, event);
    SettlesSale(s, rest, order, own, event, held, Granted(quantity - filled, event.volume), [], history, event.timestamp);
    assert [] + Rest(event.sequence + 1, quantity, filled + Granted(quantity - filled, event.volume))
           == Rest(event.sequence + 1, quantity, filled + Granted(quantity - filled, event.volume));
  }

  lemma ShareOfVolume(volume: int)
    requires volume > 0
    ensures volume as real * 0.1 / volume as real == 0.1 && volume as real * 0.1 > 0.0
  {
  }

  /** The exit of all that is held sells what the bar's liquidity, taken once more, allows. */
  lemma ExitsPart(s: Setup, st: State, event: MarketEvent, held: real, history: seq<real>, asks: seq<Ask>)
    requires Partial(s) && event.open == 1.0 && event.lastPrice == None && event.volume > 0 && event.symbol == "X"
    requires Stands(st, st.book.cash, held, history, asks, event.timestamp) && 0.0 < held <= 100.0 && st.book.cash >= 0.0
    requires |history| >= 3 && !Rising(history)
    requires var q := Granted(held, event.volume); held <= q || held - q > 0.000000001
    ensures var q := Granted(held, event.volume);
            Stands(Trade(s, st, event), st.book.cash + q, MaxReal(0.0, held - q), history,
                   asks + Rest(event.sequence + 1, held, q), event.timestamp + 1)
  {
    hide BrokerExecute, Settle, Trade, TailMean, Held, Rest, Waits;
    TradeExits(s, st, event, held);
    var o := OrderFor(st, Sell, held, event);
    var entered := Entered(st, Signal(ExitSignal, held, event.timestamp), o, event);
    var asked := entered.(requested := entered.requested + held);
    ShareOfVolume(event.volume);
    MarkingKeepsHeld(st.book);
    SettlesSale(s, asked, o, s.execution, event, held, Granted(held, event.volume), asks, history, event.timestamp + 1);
  }

  lemma MarkingKeepsHeld(b: Book)
    ensures Held(MarkPrice(b, "X", 1.0), "X") == Held(b, "X")
  {
  }

  // ----- Seven bars -----

  /** Four bars that trade a hundred each, then bars that trade twenty, forty and a hundred, all at closes of one. */
  function ThinningBars(n: nat): (bars: seq<Bar>)
    requires n <= 3
    ensures |bars| == 4 + n
  {
    BarsOf(Spike(4), 0) + [BarWith(5, 1.0, 20), BarWith(6, 1.0, 40), BarWith(7, 1.0, 100)][..n]
  }

  function Volume(n: nat): int { if n == 5 then 20 else if n == 6 then 40 else 100 }

  lemma NextBar(s: Setup, n: nat)
    requires s.Valid() && 5 <= n <= 7
    ensures Run(s, ThinningBars(n - 4))
            == Step(s, Run(s, ThinningBars(n - 5)), BarWith(n, 1.0, Volume(n)), n)
    ensures Spike(n - 1) + [1.0] == Spike(n) && !Rising(Spike(n - 1))
  {
    hide Step, Rising;
    SpikeRises(n - 1);
    SpikeGrows(n - 1);
    var bars := ThinningBars(n - 4);
    assert bars[..|bars| - 1] == ThinningBars(n - 5) && bars[|bars| - 1] == BarWith(n, 1.0, Volume(n));
  }

  lemma ThinningIsLegal()
    ensures LegalBars(ThinningBars(3))
  {
    hide BarsOf, MaxReal, MinReal;
    var bars := ThinningBars(3);
    forall i | 0 <= i < 7
      ensures bars[i] == BarWith(i + 1, Spike(7)[i], if i < 4 then 100 else Volume(i + 1))
    {
      if i < 4 { FirstFour(i); }
    }
    forall i | 0 <= i < 7
      ensures 0.0 < bars[i].low <= bars[i].open <= bars[i].high && bars[i].low <= bars[i].close <= bars[i].high
    {
      BarIsConsistent(i + 1, Spike(7)[i], bars[i].volume);
    }
  }

  lemma FirstFour(i: nat)
    requires i < 4
    ensures BarsOf(Spike(4), 0)[i] == BarWith(i + 1, Spike(7)[i], 100)
  {
  }

  lemma BarIsConsistent(timestamp: int, close: real, volume: int)
    requires close > 0.0
    ensures var b := BarWith(timestamp, close, volume);
            0.0 < b.low <= b.open <= b.high && b.low <= b.close <= b.high
  {
  }

  lemma BuysTen(s: Setup, st: State, event: MarketEvent)
    requires Partial(s) && Watching(st, Spike(3)) && event == EventOf(s, BarWith(4, 1.0, 100), 4)
    ensures Stands(Trade(s, st, event), 90.0, 10.0, Spike(3), [], 5)
  {
    hide TailMean, BrokerExecute, OnMarket, Check, Trade;
    SpikeRises(3);
    TradeBuys(s, st, event);
    ExecutesAtOne(s, s.execution, OrderFor(st, Buy, 10.0, event), event, 10.0);
  }

  /** Bar four buys ten. */
  lemma FourthBar(s: Setup)
    requires Partial(s)
    ensures Stands(Run(s, ThinningBars(0)), 90.0, 10.0, Spike(4), [], 5)
  {
    hide DrainDue, Trade, Step, Waits, Rising;
    var st, bar := SpikeRun(s, 3), BarWith(4, 1.0, 100);
    var event := EventOf(s, bar, 4);
    Watched(s, Spike(3), 0);
    NothingDue(s, st, event);
    SpikeStep(s, 3);
    BuysTen(s, st, event);
    StandsAfterClose(s, st, bar, 4, 90.0, 10.0, Spike(3), []);
    assert ThinningBars(0) == BarsOf(Spike(4), 0);
  }

  /** Bar five wants to sell the ten and sells two. */
  lemma FifthBar(s: Setup)
    requires Partial(s)
    ensures Stands(Run(s, ThinningBars(1)), 92.0, 8.0, Spike(5), [Ask(6, Sell, 10.0, 2.0)], 6)
  {
    hide DrainDue, Trade, Step, Waits, Rising, Run;
    var st, bar := Run(s, ThinningBars(0)), BarWith(5, 1.0, 20);
    var event := EventOf(s, bar, 5);
    FourthBar(s);
    NextBar(s, 5);
    NothingDue(s, st, event);
    ExitsPart(s, st, event, 10.0, Spike(4), []);
    assert [] + Rest(6, 10.0, 2.0) == [Ask(6, Sell, 10.0, 2.0)];
    StandsAfterClose(s, st, bar, 5, 92.0, 8.0, Spike(4), [Ask(6, Sell, 10.0, 2.0)]);
  }

  /** Bar six sells four of the waiting eight, and then the four still held, again. */
  lemma SixthBar(s: Setup)
    requires Partial(s)
    ensures Stands(Run(s, ThinningBars(2)), 100.0, 0.0, Spike(6), [Ask(7, Sell, 10.0, 6.0)], 7)
  {
    hide DrainDue, Trade, Step, Waits, Rising, Run;
    var st, bar := Run(s, ThinningBars(1)), BarWith(6, 1.0, 40);
    var event := EventOf(s, bar, 6);
    FifthBar(s);
    NextBar(s, 6);
    DrainsSale(s, st, event, 8.0, 2.0, 10.0, Spike(5));
    assert Rest(7, 10.0, 6.0) == [Ask(7, Sell, 10.0, 6.0)];
    ExitsPart(s, DrainDue(s, st, event), event, 4.0, Spike(5), [Ask(7, Sell, 10.0, 6.0)]);
    assert [Ask(7, Sell, 10.0, 6.0)] + Rest(7, 4.0, 4.0) == [Ask(7, Sell, 10.0, 6.0)];
    StandsAfterClose(s, st, bar, 6, 100.0, 0.0, Spike(5), [Ask(7, Sell, 10.0, 6.0)]);
  }

  /**
    MICROSTRUCTURE without latency, in a legal session at opening prices of one and no costs: on its seventh bar it
    sells four of nothing, and ends with 104 from 100, holding nothing.
   */
  lemma {:induction false} PartialFillsCreateCash(s: Setup)
    requires Partial(s)
    ensures var st := Run(s, ThinningBars(3));
            && s.Legal() && LegalBars(ThinningBars(3))
            && s.cash == 100.0 && !st.failed && Held(st.book, "X") == 0.0 && st.book.realized == 0.0
            && st.pending == [] && st.book.cash == 104.0
  {
    hide DrainDue, Trade, Step, Waits, Rising, Run, ThinningBars, LegalBars;
    var st, bar := Run(s, ThinningBars(2)), BarWith(7, 1.0, 100);
    var event := EventOf(s, bar, 7);
    ExamplesAreLegal(s, Microstructure, 0, 0.1);
    ThinningIsLegal();
    SixthBar(s);
    NextBar(s, 7);
    DrainsSale(s, st, event, 0.0, 6.0, 10.0, Spike(6));
    TradeHolds(s, DrainDue(s, st, event), event);
    StandsAfterClose(s, st, bar, 7, 104.0, 0.0, Spike(6), []);
  }
}
