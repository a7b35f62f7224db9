/** Short sessions that the service accepts, and that show where a law of the replay stops. */
module ReplayExamples {
  import opened Common
  import opened Execution
  import opened Portfolio
  import opened Decisions
  import opened Replay
  import opened ReplayLiquidity
  import opened ReplayLedger
  import opened ReplayOrders
  import opened ReplayAggregate

  // ----- The sessions -----

  /** Windows of two and three bars, no costs, and limits out of reach. */
  function Example(model: Model, latency: int, exposure: real, root: real -> real): Setup {
    Setup("X", 100.0, Windows(2, 3, exposure), RiskConfig(1000.0, 1000.0, 1.0, 0.0, 0.0),
          Config(model, FixedBps, 0.0, 0.0, 0.1, 0.0, latency, 0.000000001, root))
  }

  ghost predicate IsExample(s: Setup, model: Model, latency: int, exposure: real) {
    latency >= 0 && s == Example(model, latency, exposure, s.execution.root)
  }

  lemma ExamplesAreLegal(s: Setup, model: Model, latency: int, exposure: real)
    requires IsExample(s, model, latency, exposure) && 0.0 < exposure <= 1.0
    ensures s.Legal()
  {
  }

  /** A bar that opens at one. */
  function BarWith(timestamp: int, close: real, volume: int): Bar {
    Bar(timestamp, 1.0, MaxReal(1.0, close), MinReal(1.0, close), close, volume)
  }

  /** Bars with the given closes that trade a hundred each, but for one that may trade nothing. */
  function BarsOf(closes: seq<real>, quiet: nat): (bars: seq<Bar>)
    ensures |bars| == |closes|
  {
    seq(|closes|, i requires 0 <= i < |closes| => BarWith(i + 1, closes[i], if i + 1 == quiet then 0 else 100))
  }

  lemma BarsAreLegal(closes: seq<real>, quiet: nat)
    requires closes != [] && forall i :: 0 <= i < |closes| ==> closes[i] > 0.0
    ensures LegalBars(BarsOf(closes, quiet))
  {
  }

  /** The last bar of such a session. */
  lemma LastBar(s: Setup, closes: seq<real>, quiet: nat)
    requires s.Valid() && closes != []
    ensures var n := |closes|;
            && BarsOf(closes, quiet)[..n - 1] == BarsOf(closes[..n - 1], quiet)
            && BarsOf(closes, quiet)[n - 1] == BarWith(n, closes[n - 1], if n == quiet then 0 else 100)
            && Run(s, BarsOf(closes, quiet))
               == Step(s, Run(s, BarsOf(closes[..n - 1], quiet)),
                       BarWith(n, closes[n - 1], if n == quiet then 0 else 100), n)
  {
    hide Step;
    var n := |closes|;
    assert BarsOf(closes, quiet)[..n - 1] == BarsOf(closes[..n - 1], quiet);
  }

  /** Closes of one, with one close of two in second place. */
  function Spike(n: nat): (closes: seq<real>)
    ensures |closes| == n && forall i :: 0 <= i < n ==> closes[i] > 0.0
  {
    seq(n, i requires 0 <= i < n => if i == 1 then 2.0 else 1.0)
  }

  lemma SpikeGrows(n: nat)
    ensures Spike(n + 1)[..n] == Spike(n) && Spike(n) + [Spike(n + 1)[n]] == Spike(n + 1)
  {
  }

  // ----- Averages and books -----

  lemma Tails(history: seq<real>)
    requires |history| >= 3
    ensures var n := |history|;
            && TailMean(history, 2) == (history[n - 2] + history[n - 1]) / 2.0
            && TailMean(history, 3) == (history[n - 3] + history[n - 2] + history[n - 1]) / 3.0
  {
    var n := |history|;
    var a, b, c := history[n - 3], history[n - 2], history[n - 1];
    assert history[n - 2..] == [] + [b] + [c] && history[n - 3..] == [] + [a] + [b] + [c];
    SumAppend([], b);
    SumAppend([] + [b], c);
    SumAppend([], a);
    SumAppend([] + [a], b);
    SumAppend([] + [a] + [b], c);
  }

  predicate Rising(history: seq<real>)
    requires |history| >= 3
  {
    TailMean(history, 2) > TailMean(history, 3)
  }

  lemma SpikeRises(n: nat)
    requires n >= 3
    ensures Rising(Spike(n)) <==> n == 3
  {
    Tails(Spike(n));
  }

  /** A book that holds one symbol, marked at one. */
  lemma OneHolding(b: Book, quantity: real)
    requires b.positions == map["X" := Position(quantity, 1.0)] && "X" in b.last && b.last["X"] == 1.0
    ensures Equity(b) == b.cash + quantity && Exposure(b) == AbsReal(quantity)
  {
    TotalSet(map[], "X", quantity);
    TotalSet(map[], "X", AbsReal(quantity));
    assert Values(b) == map[]["X" := quantity];
    assert Exposures(b) == map[]["X" := AbsReal(quantity)];
    var empty: map<string, real> := map[];
    assert empty - {"X"} == map[];
  }

  lemma NoHolding(b: Book)
    requires b.positions == map[]
    ensures Equity(b) == b.cash && Exposure(b) == 0.0
  {
    assert Values(b) == map[] && Exposures(b) == map[];
  }

  /** A session that has only watched. */
  predicate Watching(st: State, history: seq<real>) {
    && st == Begin(Example(Ideal, 0, 0.0, x => x)).(book := st.book, history := st.history, signals := st.signals)
    && st.book.cash == 100.0 && st.book.positions == map[] && st.book.realized == 0.0 && st.history == history
  }

  lemma Watches(s: Setup, st: State, history: seq<real>, bar: Bar, sequence: nat)
    requires s.Valid() && s.windows.slow == 3 && |history| < 3 && Watching(st, history)
    ensures Watching(Step(s, st, bar, sequence), history + [bar.close])
  {
    NothingDue(s, st, EventOf(s, bar, sequence));
    hide DrainDue, TailMean, Equity;
  }

  /** Every example session watches its first three bars. */
  lemma {:induction false} Watched(s: Setup, closes: seq<real>, quiet: nat)
    requires s.Valid() && s.windows.slow == 3 && s.cash == 100.0 && |closes| <= 3
    ensures Watching(Run(s, BarsOf(closes, quiet)), closes)
  {
    hide Step;
    if closes == [] {
      assert BarsOf(closes, quiet) == [];
    } else {
      var n := |closes|;
      LastBar(s, closes, quiet);
      Watched(s, closes[..n - 1], quiet);
      Watches(s, Run(s, BarsOf(closes[..n - 1], quiet)), closes[..n - 1],
              BarWith(n, closes[n - 1], if n == quiet then 0 else 100), n);
      assert closes[..n - 1] + [closes[n - 1]] == closes;
    }
  }

  // ----- The three things a bar of these sessions can do -----

  ghost predicate AtOne(s: Setup, st: State, event: MarketEvent) {
    && s.Valid() && Wired(st) && |st.history| >= 3
    && s.symbol == "X" && s.windows.fast == 2 && s.windows.slow == 3
    && s.risk == RiskConfig(1000.0, 1000.0, 1.0, 0.0, 0.0) && s.execution.tolerance == 0.000000001
    && event.symbol == "X" && event.open == 1.0
    && forall k :: k in st.seen ==> k.createdAt < event.timestamp
  }

  function OrderFor(st: State, side: Side, quantity: real, event: MarketEvent): Order {
    Order(|st.orders|, "X", side, quantity, event.timestamp, Submitted, None, 0.0, 0.0)
  }

  /** The state in which an accepted order is submitted. */
  ghost function Entered(st: State, signal: Signal, order: Order, event: MarketEvent): State {
    st.(book := MarkPrice(st.book, event.symbol, event.open), signals := st.signals + [signal],
        orders := st.orders + [order], submitted := st.submitted + [event.sequence], seen := st.seen + {KeyOf(order)})
  }

  lemma TradeHolds(s: Setup, st: State, event: MarketEvent)
    requires AtOne(s, st, event) && !Rising(st.history) && Held(st.book, "X") == 0.0
    ensures Trade(s, st, event) == st.(book := MarkPrice(st.book, "X", 1.0),
                                       signals := st.signals + [Signal(Hold, 0.0, event.timestamp)])
  {
    hide TailMean, Equity, Exposure;
  }

  lemma TradeExits(s: Setup, st: State, event: MarketEvent, q: real)
    requires AtOne(s, st, event) && !Rising(st.history) && 0.0 < q <= 100.0
    requires st.book.positions == map["X" := Position(q, 1.0)] && st.book.cash >= 0.0
    ensures var o := OrderFor(st, Sell, q, event);
            Trade(s, st, event) == Submit(s, Entered(st, Signal(ExitSignal, q, event.timestamp), o, event), o, event)
  {
    hide TailMean, Equity, Exposure, Submit;
    OneHolding(MarkPrice(st.book, "X", 1.0), q);
  }

  lemma TradeBuys(s: Setup, st: State, event: MarketEvent)
    requires AtOne(s, st, event) && Rising(st.history) && st.book.positions == map[] && st.book.cash == 100.0
    requires 0.0 < s.windows.exposure <= 1.0
    ensures var q := 100.0 * s.windows.exposure;
            var o := OrderFor(st, Buy, q, event);
            && Trade(s, st, event) == Submit(s, Entered(st, Signal(BuySignal, q, event.timestamp), o, event), o, event)
            && SubmittedAt(s, st, event) == Some(o)
  {
    hide TailMean, Equity, Exposure, Submit;
    NoHolding(MarkPrice(st.book, "X", 1.0));
  }

  /** Without costs and spread every price is the open, whatever the model: one. */
  lemma ExecutesAtOne(s: Setup, c: Config, order: Order, event: MarketEvent, quantity: real)
    requires order.Executable() && order.averagePrice == (if order.filled == 0.0 then 0.0 else 1.0)
    requires c.spreadModel == FixedBps && c.fixedSpreadBps == 0.0 && c.slippageBps == 0.0 && c.impactBps == 0.0
    requires event.open == 1.0 && event.lastPrice == None && c.tolerance == 0.000000001 && s.risk.commissionBps == 0.0
    requires 0.0 < quantity <= order.Unfilled() && order.filled >= 0.0
    requires quantity == match c.model
                         case Microstructure => MinReal(order.Unfilled(), event.volume as real * c.maxParticipation)
                         case _ => order.Unfilled()
    ensures var r := BrokerExecute(order, event, c, s.risk.commissionBps);
            && r.Ok? && |r.value.fills| == 1
            && r.value.order == order.(filled := order.filled + quantity, averagePrice := 1.0,
                                       status := if order.Unfilled() - quantity <= c.tolerance then Filled
                                                 else PartiallyFilled)
            && var f := r.value.fills[0];
               f.side == order.side && f.symbol == order.symbol && f.quantity == quantity && f.price == 1.0
               && f.gross == quantity && f.fees == 0.0
  {
    hide Impact, Price, MarketStateOf, FillQuantity, Reference;
    var m := MarketStateOf(event, c);
    PriceIsOne(order, event, c, quantity);
    MeanOfOnes(order.averagePrice, order.filled, Price(order.side, quantity, m, c), quantity);
  }

  lemma MeanOfOnes(average: real, filled: real, price: real, quantity: real)
    requires filled >= 0.0 && quantity > 0.0 && price == 1.0 && average == (if filled == 0.0 then 0.0 else 1.0)
    ensures (average * filled + price * quantity) / (filled + quantity) == 1.0
  {
    assert average * filled == filled;
  }

  lemma PriceIsOne(order: Order, event: MarketEvent, c: Config, quantity: real)
    requires c.spreadModel == FixedBps && c.fixedSpreadBps == 0.0 && c.slippageBps == 0.0 && c.impactBps == 0.0
    requires event.open == 1.0 && event.lastPrice == None && 0.0 < quantity <= order.Unfilled()
    requires quantity == match c.model
                         case Microstructure => MinReal(order.Unfilled(), event.volume as real * c.maxParticipation)
                         case _ => order.Unfilled()
    ensures var m := MarketStateOf(event, c);
            && FillQuantity(order, m, c) == quantity && Price(order.side, quantity, m, c) == 1.0
            && m == MarketState(1.0, 1.0, 1.0, event.volume, event.timestamp)
  {
    hide Impact;
    NoImpact(quantity, MarketStateOf(event, c), c);
  }

  lemma NoImpact(quantity: real, m: MarketState, c: Config)
    requires c.impactBps == 0.0
    ensures Impact(quantity, m, c) == 0.0
  {
  }

  /** A fill at one, of the first purchase or of a position bought at one. */
  lemma FillAtOne(b: Book, f: Fill, tolerance: real)
    requires f.symbol == "X" && f.price == 1.0 && f.gross == f.quantity > 0.0 && f.fees == 0.0 && tolerance >= 0.0
    requires Held(b, "X") >= 0.0 && (Held(b, "X") > 0.0 ==> b.positions == map["X" := Position(Held(b, "X"), 1.0)])
    ensures var c := ApplyFill(b, f, tolerance);
            && c.cash == b.cash + (if f.side == Buy then -f.quantity else f.quantity)
            && (f.side == Buy && b.positions == map[] ==> c.positions == map["X" := Position(f.quantity, 1.0)])
            && (f.side == Sell && Held(b, "X") <= f.quantity ==> Held(c, "X") == 0.0 && c.realized == b.realized)
            && (f.side == Buy ==> c.realized == b.realized)
  {
    MeanOfOnes(0.0, 0.0, f.price, f.quantity);
  }

  // ----- What matters about a session between bars -----

  /** An order as it waits: nothing of it filled yet, or part of it at one. */
  datatype Ask = Ask(due: int, side: Side, quantity: real, filled: real)

  predicate Waits(p: Pending, a: Ask) {
    && p.due == a.due && p.order.side == a.side && p.order.quantity == a.quantity && p.order.symbol == "X"
    && p.order.filled == a.filled >= 0.0 && p.order.Executable()
    && p.order.averagePrice == (if a.filled == 0.0 then 0.0 else 1.0)
  }

  ghost predicate Stands(st: State, cash: real, held: real, history: seq<real>, asks: seq<Ask>, now: int) {
    && !st.failed && Wired(st) && st.book.cash == cash && Held(st.book, "X") == held >= 0.0 && st.book.realized == 0.0
    && (held > 0.0 ==> st.book.positions == map["X" := Position(held, 1.0)])
    && st.history == history && |st.pending| == |asks|
    && (forall i :: 0 <= i < |asks| ==> Waits(st.pending[i], asks[i]))
    && forall k :: k in st.seen ==> k.createdAt < now
  }

  lemma Closes(s: Setup, st: State, bar: Bar, sequence: nat)
    requires s.Valid() && Wired(st) && !st.failed && !DrainDue(s, st, EventOf(s, bar, sequence)).failed
    requires !Trade(s, DrainDue(s, st, EventOf(s, bar, sequence)), EventOf(s, bar, sequence)).failed
    ensures var t := Step(s, st, bar, sequence);
            var u := Trade(s, DrainDue(s, st, EventOf(s, bar, sequence)), EventOf(s, bar, sequence));
            && t.failed == u.failed && t.book == u.book.(last := t.book.last)
            && t.history == u.history + [bar.close] && t.pending == u.pending && t.seen == u.seen
            && t.filled == u.filled && t.requested == u.requested && t.orders == u.orders
  {
    hide DrainDue, Trade;
  }

  /** A bar whose trade leaves the session standing leaves it standing with one close more. */
  lemma StandsAfterClose(s: Setup, st: State, bar: Bar, sequence: nat, cash: real, held: real, history: seq<real>,
                         asks: seq<Ask>)
    requires s.Valid() && Wired(st) && !st.failed && !DrainDue(s, st, EventOf(s, bar, sequence)).failed
    requires Stands(Trade(s, DrainDue(s, st, EventOf(s, bar, sequence)), EventOf(s, bar, sequence)), cash, held, history,
                    asks, sequence + 1)
    ensures Stands(Step(s, st, bar, sequence), cash, held, history + [bar.close], asks, sequence + 1)
  {
    hide DrainDue, Trade, Step, Waits;
    Closes(s, st, bar, sequence);
  }

  /** The bar that buys, on its trade. */
  lemma BuyQueued(s: Setup, st: State, event: MarketEvent)
    requires AtOne(s, st, event) && s.execution.latency != 0 && 0.0 < s.windows.exposure <= 1.0
    requires Watching(st, st.history) && Rising(st.history)
    ensures Stands(Trade(s, st, event), 100.0, 0.0, st.history,
                   [Ask(event.sequence + s.execution.latency, Buy, 100.0 * s.windows.exposure, 0.0)],
                   event.timestamp + 1)
    ensures Trade(s, st, event).book.positions == map[]
  {
    hide TailMean, OnMarket, Check, Trade;
    TradeBuys(s, st, event);
  }

  // ----- Two bars of latency or more: the position is sold twice -----

  ghost predicate Late(s: Setup) { IsExample(s, Ideal, s.execution.latency, 0.5) && s.execution.latency >= 2 }

  /** A due order of the late session fills whole, at one. */
  lemma LateDrain(s: Setup, st: State, event: MarketEvent, a: Ask)
    requires Late(s) && Wired(st) && !st.failed && st.pending != [] && Waits(st.pending[0], a)
    requires event.open == 1.0 && event.lastPrice == None
    requires a.filled == 0.0 && a.quantity > 0.0 && a.due <= event.sequence
    requires forall i :: 0 < i < |st.pending| ==> st.pending[i].due > event.sequence
    requires Held(st.book, "X") >= 0.0
    requires Held(st.book, "X") > 0.0 ==> st.book.positions == map["X" := Position(Held(st.book, "X"), 1.0)]
    ensures var d := DrainDue(s, st, event);
            && !d.failed && d.pending == st.pending[1..] && d.history == st.history && d.seen == st.seen
            && d.book.cash == st.book.cash + (if a.side == Buy then -a.quantity else a.quantity)
            && (a.side == Buy && st.book.positions == map[] ==>
                  d.book.positions == map["X" := Position(a.quantity, 1.0)] && d.book.realized == st.book.realized)
            && (a.side == Sell && Held(st.book, "X") <= a.quantity ==>
                  Held(d.book, "X") == 0.0 && d.book.realized == st.book.realized)
  {
    HeadDue(s, st, event);
    var order := st.pending[0].order;
    ExecutesAtOne(s, s.execution, order, event, a.quantity);
    hide BrokerExecute, ApplyFill, DrainDue, Held;
    var f := BrokerExecute(order, event, s.execution, s.risk.commissionBps).value.fills[0];
    assert DrainDue(s, st, event).book == ApplyFill(st.book, f, s.execution.tolerance);
    FillAtOne(st.book, f, s.execution.tolerance);
  }

  /** With latency, an exit leaves the book alone and adds one order to the queue. */
  lemma LateExit(s: Setup, st: State, event: MarketEvent, history: seq<real>, asks: seq<Ask>)
    requires Late(s) && Stands(st, 50.0, 50.0, history, asks, event.timestamp)
    requires |history| >= 3 && !Rising(history) && event.symbol == "X" && event.open == 1.0
    ensures Stands(Trade(s, st, event), 50.0, 50.0, history,
                   asks + [Ask(event.sequence + s.execution.latency, Sell, 50.0, 0.0)], event.timestamp + 1)
  {
    hide TailMean, Trade, OnMarket, Check;
    TradeExits(s, st, event, 50.0);
  }

  lemma LateHold(s: Setup, st: State, event: MarketEvent, cash: real, history: seq<real>, asks: seq<Ask>)
    requires Late(s) && Stands(st, cash, 0.0, history, asks, event.timestamp)
    requires |history| >= 3 && !Rising(history) && event.symbol == "X" && event.open == 1.0
    ensures Stands(Trade(s, st, event), cash, 0.0, history, asks, event.timestamp + 1)
    ensures Trade(s, st, event).book.positions == st.book.positions
  {
    hide TailMean, Trade, OnMarket, Check, Waits;
    TradeHolds(s, st, event);
  }

  /** The sales ordered bar after bar while the first is on its way. */
  function Sales(first: int, count: nat): (asks: seq<Ask>)
    ensures |asks| == count && forall i :: 0 <= i < count ==> asks[i] == Ask(first + i, Sell, 50.0, 0.0)
  {
    seq(count, i requires 0 <= i < count => Ask(first + i, Sell, 50.0, 0.0))
  }

  ghost function SpikeRun(s: Setup, n: nat): State
    requires s.Valid()
  {
    Run(s, BarsOf(Spike(n), 0))
  }

  lemma SpikeStep(s: Setup, n: nat)
    requires s.Valid() && n >= 2
    ensures SpikeRun(s, n + 1) == Step(s, SpikeRun(s, n), BarWith(n + 1, 1.0, 100), n + 1)
    ensures Spike(n) + [1.0] == Spike(n + 1)
  {
    hide Step;
    SpikeGrows(n);
    LastBar(s, Spike(n + 1), 0);
  }

  lemma LateBuys(s: Setup)
    requires Late(s)
    ensures Stands(SpikeRun(s, 4), 100.0, 0.0, Spike(4), [Ask(4 + s.execution.latency, Buy, 50.0, 0.0)], 5)
    ensures SpikeRun(s, 4).book.positions == map[]
  {
    hide DrainDue, Trade, Step, Waits, Rising;
    var st, bar := SpikeRun(s, 3), BarWith(4, 1.0, 100);
    var event := EventOf(s, bar, 4);
    Watched(s, Spike(3), 0);
    SpikeRises(3);
    NothingDue(s, st, event);
    SpikeStep(s, 3);
    BuyQueued(s, st, event);
    StandsAfterClose(s, st, bar, 4, 100.0, 0.0, Spike(3), [Ask(4 + s.execution.latency, Buy, 50.0, 0.0)]);
    Closes(s, st, bar, 4);
  }

  lemma NoneDue(s: Setup, st: State, event: MarketEvent, asks: seq<Ask>)
    requires Wired(st) && |st.pending| == |asks| && forall i :: 0 <= i < |asks| ==> Waits(st.pending[i], asks[i])
    requires forall i :: 0 <= i < |asks| ==> asks[i].due > event.sequence
    ensures DrainDue(s, st, event) == st
  {
    NothingDue(s, st, event);
  }

  /** Until the purchase arrives, nothing happens. */
  lemma {:induction false} LateWaits(s: Setup, n: nat)
    requires Late(s) && 4 <= n < 4 + s.execution.latency
    ensures Stands(SpikeRun(s, n), 100.0, 0.0, Spike(n), [Ask(4 + s.execution.latency, Buy, 50.0, 0.0)], n + 1)
    ensures SpikeRun(s, n).book.positions == map[]
  {
    hide DrainDue, Trade, Step, Waits, Rising;
    if n == 4 {
      LateBuys(s);
    } else {
      LateWaits(s, n - 1);
      var st, bar, asks := SpikeRun(s, n - 1), BarWith(n, 1.0, 100), [Ask(4 + s.execution.latency, Buy, 50.0, 0.0)];
      var event := EventOf(s, bar, n);
      SpikeStep(s, n - 1);
      NoneDue(s, st, event, asks);
      SpikeRises(n - 1);
      LateHold(s, st, event, 100.0, Spike(n - 1), asks);
      StandsAfterClose(s, st, bar, n, 100.0, 0.0, Spike(n - 1), asks);
      Closes(s, st, bar, n);
    }
  }

  /** The purchase arrives and its exit is ordered; on every bar until that is filled it is ordered again. */
  lemma {:induction false} LateSells(s: Setup, n: nat)
    requires Late(s) && 4 + s.execution.latency <= n < 4 + 2 * s.execution.latency
    ensures var l := s.execution.latency;
            Stands(SpikeRun(s, n), 50.0, 50.0, Spike(n), Sales(4 + 2 * l, n - 3 - l), n + 1)
  {
    hide DrainDue, Trade, Step, Rising;
    var l, bar := s.execution.latency, BarWith(n, 1.0, 100);
    var st, event := SpikeRun(s, n - 1), EventOf(s, bar, n);
    SpikeStep(s, n - 1);
    SpikeRises(n - 1);
    if n == 4 + l {
      LateWaits(s, n - 1);
      LateDrain(s, st, event, Ask(n, Buy, 50.0, 0.0));
      LateExit(s, DrainDue(s, st, event), event, Spike(n - 1), []);
      assert [] + [Ask(n + l, Sell, 50.0, 0.0)] == Sales(4 + 2 * l, 1);
    } else {
      LateSells(s, n - 1);
      NoneDue(s, st, event, Sales(4 + 2 * l, n - 4 - l));
      LateExit(s, st, event, Spike(n - 1), Sales(4 + 2 * l, n - 4 - l));
      assert Sales(4 + 2 * l, n - 4 - l) + [Ask(n + l, Sell, 50.0, 0.0)] == Sales(4 + 2 * l, n - 3 - l);
    }
    StandsAfterClose(s, st, bar, n, 50.0, 50.0, Spike(n - 1), Sales(4 + 2 * l, n - 3 - l));
  }

  /** A sale arrives; it is paid for whether or not anything is held. */
  lemma LateSale(s: Setup, n: nat, cash: real, held: real, count: nat)
    requires Late(s) && n > 4 && count >= 1 && (held == 50.0 || held == 0.0)
    requires Stands(SpikeRun(s, n - 1), cash, held, Spike(n - 1), Sales(n, count), n)
    ensures Stands(SpikeRun(s, n), cash + 50.0, 0.0, Spike(n), Sales(n + 1, count - 1), n + 1)
  {
    hide DrainDue, Trade, Step, Rising;
    var bar := BarWith(n, 1.0, 100);
    var st, event := SpikeRun(s, n - 1), EventOf(s, bar, n);
    SpikeStep(s, n - 1);
    SpikeRises(n - 1);
    LateDrain(s, st, event, Ask(n, Sell, 50.0, 0.0));
    assert Sales(n, count)[1..] == Sales(n + 1, count - 1);
    LateHold(s, DrainDue(s, st, event), event, cash + 50.0, Spike(n - 1), Sales(n + 1, count - 1));
    StandsAfterClose(s, st, bar, n, cash + 50.0, 0.0, Spike(n - 1), Sales(n + 1, count - 1));
  }

  /**
    For every latency of two bars or more there is a legal session that creates cash: IDEAL execution, opening prices
    of one and no costs. One purchase is sold twice; then nothing is held, nothing was realised, and the cash has grown
    from 100 to 150.
   */
  lemma {:induction false} LatencyCreatesCash(s: Setup)
    requires Late(s)
    ensures var bars := BarsOf(Spike(5 + 2 * s.execution.latency), 0);
            var st := Run(s, bars);
            && s.Legal() && LegalBars(bars)
            && s.cash == 100.0 && !st.failed && Held(st.book, "X") == 0.0 && st.book.realized == 0.0
            && st.book.cash == 150.0
  {
    hide Run, BarsOf, Waits;
    var l := s.execution.latency;
    ExamplesAreLegal(s, Ideal, l, 0.5);
    BarsAreLegal(Spike(5 + 2 * l), 0);
    LateSells(s, 3 + 2 * l);
    LateSale(s, 4 + 2 * l, 50.0, 50.0, l);
    LateSale(s, 5 + 2 * l, 100.0, 0.0, l - 1);
  }

  // ----- No latency: the bar's liquidity is used twice -----

  ghost predicate Thin(s: Setup) { IsExample(s, Microstructure, 0, 0.4) }

  lemma ThinBuyTrade(s: Setup, st: State, event: MarketEvent)
    requires Thin(s) && Watching(st, Spike(3)) && event == EventOf(s, BarWith(4, 1.0, 100), 4)
    ensures Stands(Trade(s, st, event), 90.0, 10.0, Spike(3), [Ask(5, Buy, 40.0, 10.0)], 5)
    ensures Trade(s, st, event).filled == 10.0
  {
    hide TailMean, BrokerExecute, OnMarket, Check, Trade;
    SpikeRises(3);
    TradeBuys(s, st, event);
    ExecutesAtOne(s, s.execution, OrderFor(st, Buy, 40.0, event), event, 10.0);
  }

  /** The buy of forty fills ten, the bar's liquidity; the rest waits for the next bar. */
  lemma ThinBuys(s: Setup)
    requires Thin(s)
    ensures Stands(SpikeRun(s, 4), 90.0, 10.0, Spike(4), [Ask(5, Buy, 40.0, 10.0)], 5)
  {
    hide DrainDue, Trade, Step, Waits, Rising;
    var st, bar := SpikeRun(s, 3), BarWith(4, 1.0, 100);
    var event := EventOf(s, bar, 4);
    Watched(s, Spike(3), 0);
    NothingDue(s, st, event);
    SpikeStep(s, 3);
    ThinBuyTrade(s, st, event);
    StandsAfterClose(s, st, bar, 4, 90.0, 10.0, Spike(3), [Ask(5, Buy, 40.0, 10.0)]);
  }

  lemma ThinDrain(s: Setup, st: State, event: MarketEvent)
    requires Thin(s) && Stands(st, 90.0, 10.0, Spike(4), [Ask(5, Buy, 40.0, 10.0)], 5)
    requires event == EventOf(s, BarWith(5, 1.0, 100), 5)
    ensures var d := DrainDue(s, st, event);
            && !d.failed && d.history == st.history && d.seen == st.seen && d.filled == st.filled + 10.0
            && d.book.cash == 80.0 && d.book.positions == map["X" := Position(20.0, 1.0)]
  {
    hide BrokerExecute, DrainDue, OwnConfig, ApplyFill;
    HeadDue(s, st, event);
    var order, own := st.pending[0].order, OwnConfig(s.execution, 10.0, 100);
    ThinGrant(s, order, event);
    var f := BrokerExecute(order, event, own, s.risk.commissionBps).value.fills[0];
    AddsTen(st.book, f, s.execution.tolerance);
  }

  lemma ThinGrant(s: Setup, order: Order, event: MarketEvent)
    requires Thin(s) && order.Executable() && order.filled == 10.0 && order.quantity == 40.0 && order.averagePrice == 1.0
    requires event == EventOf(s, BarWith(5, 1.0, 100), 5)
    ensures var own := OwnConfig(s.execution, 10.0, 100);
            && own.Valid()
            && var r := BrokerExecute(order, event, own, s.risk.commissionBps);
               && r.Ok? && |r.value.fills| == 1 && r.value.order.id == order.id
               && var f := r.value.fills[0];
                  f.side == order.side && f.symbol == order.symbol && f.quantity == 10.0 && f.price == 1.0
                  && f.gross == 10.0 && f.fees == 0.0
  {
    hide BrokerExecute;
    ExecutesAtOne(s, OwnConfig(s.execution, 10.0, 100), order, event, 10.0);
  }

  lemma AddsTen(b: Book, f: Fill, tolerance: real)
    requires f.side == Buy && f.symbol == "X" && f.quantity == 10.0 && f.price == 1.0 && f.gross == 10.0 && f.fees == 0.0
    requires b.cash == 90.0 && b.positions == map["X" := Position(10.0, 1.0)]
    ensures ApplyFill(b, f, tolerance).cash == 80.0
    ensures ApplyFill(b, f, tolerance).positions == map["X" := Position(20.0, 1.0)]
  {
    MeanOfOnes(1.0, 10.0, f.price, f.quantity);
    assert AfterBuy(b.positions["X"], f) == Position(20.0, 1.0);
    assert b.positions["X" := Position(20.0, 1.0)] == map["X" := Position(20.0, 1.0)];
  }

  /** The due order takes the bar's ten, and the exit takes another ten. */
  lemma ThinExit(s: Setup, st: State)
    requires Thin(s) && Stands(st, 90.0, 10.0, Spike(4), [Ask(5, Buy, 40.0, 10.0)], 5)
    ensures Step(s, st, BarWith(5, 1.0, 100), 5).filled == st.filled + 20.0
  {
    hide TailMean, DrainDue, BrokerExecute, Step, Trade;
    var bar := BarWith(5, 1.0, 100);
    var event := EventOf(s, bar, 5);
    ThinDrain(s, st, event);
    SpikeRises(4);
    var d := DrainDue(s, st, event);
    TradeExits(s, d, event, 20.0);
    ExecutesAtOne(s, s.execution, OrderFor(d, Sell, 20.0, event), event, 10.0);
    Closes(s, st, bar, 5);
  }

  /** MICROSTRUCTURE without latency, in a legal session: the fifth bar's liquidity is ten, and it fills twenty. */
  lemma {:induction false} CapIsExceeded(s: Setup)
    requires Thin(s)
    ensures var bars := BarsOf(Spike(5), 0);
            && s.Legal() && LegalBars(bars)
            && Cap(s, bars[4]) == 10.0 && FilledOn(s, bars) == 20.0
  {
    hide Step, Run, Waits;
    ExamplesAreLegal(s, Microstructure, 0, 0.4);
    BarsAreLegal(Spike(5), 0);
    ThinBuys(s);
    SpikeStep(s, 4);
    ThinExit(s, SpikeRun(s, 4));
    SpikeGrows(4);
    LastBar(s, Spike(5), 0);
  }

  // ----- No latency and no volume: the order is dropped -----

  lemma DroppedTrade(s: Setup, st: State, event: MarketEvent)
    requires Thin(s) && Watching(st, Spike(3)) && event == EventOf(s, BarWith(4, 1.0, 0), 4)
    ensures var t, o := Trade(s, st, event), OrderFor(st, Buy, 40.0, event);
            && !t.failed && t.orders == [o] && t.pending == [] && t.requested == 40.0 && t.filled == 0.0
            && SubmittedAt(s, st, event) == Some(o)
  {
    hide TailMean, BrokerExecute, OnMarket, Check, Trade, SubmittedAt;
    SpikeRises(3);
    TradeBuys(s, st, event);
    var o := OrderFor(st, Buy, 40.0, event);
    NothingToFill(s, o, event);
    assert [o][0 := o] == [o];
  }

  /**
    MICROSTRUCTURE without latency, in a legal session whose fourth bar has no volume: the order accepted on it is left
    submitted, unfilled and unqueued, and the order balance does not close.
   */
  lemma {:induction false} OrderIsDropped(s: Setup)
    requires Thin(s)
    ensures var bars := BarsOf(Spike(4), 4);
            var st := Run(s, bars);
            && s.Legal() && LegalBars(bars)
            && |st.orders| == 1 && st.orders[0].status == Submitted && st.pending == []
            && st.requested == 40.0 && st.filled == 0.0
            && SubmittedOn(s, bars).Some? && bars[3].volume == 0 && !AllCouldFill(s, bars)
  {
    hide Step, Run, DrainDue, Trade, SubmittedAt;
    ExamplesAreLegal(s, Microstructure, 0, 0.4);
    BarsAreLegal(Spike(4), 4);
    var bars, bar := BarsOf(Spike(4), 4), BarWith(4, 1.0, 0);
    var st, event := Run(s, BarsOf(Spike(3), 4)), EventOf(s, bar, 4);
    Watched(s, Spike(3), 4);
    SpikeGrows(3);
    LastBar(s, Spike(4), 4);
    NothingDue(s, st, event);
    DroppedTrade(s, st, event);
    Closes(s, st, bar, 4);
    assert bars[..4] == bars;
  }
}
