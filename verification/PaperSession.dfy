/** The session's objects and its bar loop, updated in place, each against the value it stands for. */
module Session {
  import opened Common
  import opened Execution
  import P = Portfolio
  import opened Decisions
  import opened Replay

  class PaperPortfolio {
    const initialCash: real
    const tolerance: real
    var cash: real
    var positions: map<string, P.Position>
    var realized: real
    var costs: real
    var last: map<string, real>

    ghost function Value(): P.Book
      reads this
    {
      P.Book(initialCash, cash, positions, realized, costs, last)
    }

    constructor (initialCash: real, tolerance: real)
      ensures Value() == P.Open(initialCash) && this.tolerance == tolerance
    {
      this.initialCash, this.tolerance := initialCash, tolerance;
      cash, positions, realized, costs, last := initialCash, map[], 0.0, 0.0, map[];
    }

    method ApplyFill(f: Fill)
      modifies this
      ensures Value() == P.ApplyFill(old(Value()), f, tolerance)
    {
      hide P.AfterBuy, P.AfterSell, P.Gain;
      var position := if f.symbol in positions then positions[f.symbol] else P.Position(0.0, 0.0);
      costs := costs + f.fees;
      last := last[f.symbol := f.price];
      if f.side == Buy {
        var bought := Bought(position, f);
        positions := positions[f.symbol := bought];
        cash := cash - (f.gross + f.fees);
        return;
      }
      var left, gain := Sold(position, f, tolerance);
      realized := realized + gain;
      cash := cash + (f.gross - f.fees);
      positions := positions[f.symbol := left];
    }

    static method Bought(position: P.Position, f: Fill) returns (bought: P.Position)
      ensures bought == P.AfterBuy(position, f)
    {
      var newCost := position.quantity * position.average + f.gross;
      var quantity := position.quantity + f.quantity;
      bought := P.Position(quantity, if quantity != 0.0 then newCost / quantity else 0.0);
    }

    static method Sold(position: P.Position, f: Fill, tolerance: real) returns (left: P.Position, gain: real)
      ensures left == P.AfterSell(position, f, tolerance) && gain == P.Gain(position, f)
    {
      var sold := MinReal(f.quantity, position.quantity);
      gain := (f.price - position.average) * sold - f.fees;
      var rest := position.quantity - sold;
      left := if rest <= tolerance then P.Position(0.0, 0.0) else P.Position(rest, position.average);
    }

    method MarkPrice(symbol: string, price: real)
      modifies this
      ensures Value() == P.MarkPrice(old(Value()), symbol, price)
    {
      last := last[symbol := price];
    }

    method Equity() returns (equity: real)
      ensures equity == P.Equity(Value())
    {
      var values := map s | s in positions :: positions[s].quantity * P.MarkOf(Snapshot(), s);
      assert values == P.Values(Value());
      var total := SumValues(values);
      equity := cash + total;
    }

    method Exposure() returns (exposure: real)
      ensures exposure == P.Exposure(Value())
    {
      var values := map s | s in positions :: AbsReal(positions[s].quantity * P.MarkOf(Snapshot(), s));
      assert values == P.Exposures(Value());
      exposure := SumValues(values);
    }

    function Snapshot(): (b: P.Book)
      reads this
      ensures b == Value()
    {
      P.Book(initialCash, cash, positions, realized, costs, last)
    }
  }

  /** Visits every symbol once, in whatever order. */
  method SumValues(values: map<string, real>) returns (total: real)
    ensures total == P.Total(values)
  {
    total := 0.0;
    var rest := values;
    while rest != map[]
      invariant P.Total(values) == total + P.Total(rest)
      decreases |rest|
    {
      assert exists k :: k in rest;
      var k :| k in rest;
      P.TotalRemove(rest, k);
      P.TotalShrinks(rest, k);
      total := total + rest[k];
      rest := rest - {k};
    }
  }

  class RiskEngine {
    const config: RiskConfig
    const tolerance: real
    var seen: set<OrderKey>

    constructor (config: RiskConfig, tolerance: real)
      ensures this.config == config && this.tolerance == tolerance && seen == {}
    {
      this.config, this.tolerance, seen := config, tolerance, {};
    }

    method RejectionReason(order: Order, portfolio: PaperPortfolio, price: real) returns (reason: Option<Reason>)
      ensures reason == Rejection(order, portfolio.Value(), price, seen, config, tolerance)
    {
      hide P.Exposure, P.Equity, P.Held, CashRequired, AbsReal, KeyOf, OverExposed;
      if order.quantity <= 0.0 { return Some(InvalidQuantity); }
      var notional, required := order.quantity * price, CashRequired(order, price, config);
      if notional > config.maxOrderValue { return Some(OrderValueExceeded); }
      if KeyOf(order) in seen { return Some(DuplicateOrder); }
      var held := P.Held(portfolio.Snapshot(), order.symbol);
      var projected := if order.side == Buy then held + order.quantity else held - order.quantity;
      if projected < -tolerance { return Some(InsufficientPosition); }
      if AbsReal(projected) > config.maxPosition { return Some(PositionSizeExceeded); }
      if order.side == Buy && required > portfolio.cash { return Some(InsufficientCash); }
      var exposure := portfolio.Exposure();
      var equity := portfolio.Equity();
      if OverExposed(exposure, equity, held, projected, price, config) {
        return Some(ExposureExceeded);
      }
      return None;
    }

    method CheckOrder(order: Order, portfolio: PaperPortfolio, price: real) returns (checked: Order)
      modifies this
      ensures checked == Check(order, portfolio.Value(), price, old(seen), config, tolerance)
      ensures seen == if checked.status == Rejected then old(seen) else old(seen) + {KeyOf(order)}
    {
      hide Rejection;
      var reason := RejectionReason(order, portfolio, price);
      if reason.Some? {
        return order.(status := Rejected, reason := reason, filled := 0.0, averagePrice := 0.0);
      }
      seen := seen + {KeyOf(order)};
      return order.(status := Submitted, reason := None, filled := 0.0, averagePrice := 0.0);
    }
  }

  class SignalStrategy {
    const windows: Windows
    const tolerance: real
    var history: seq<real>

    constructor (windows: Windows, tolerance: real)
      ensures this.windows == windows && this.tolerance == tolerance && history == []
    {
      this.windows, this.tolerance, history := windows, tolerance, [];
    }

    method OnEvent(event: MarketEvent, portfolio: PaperPortfolio) returns (signal: Signal)
      requires windows.Valid()
      ensures signal == OnMarket(windows, history, event, portfolio.Value(), tolerance)
    {
      hide P.Equity, Mean;
      if |history| < windows.slow {
        return Signal(Hold, 0.0, event.timestamp);
      }
      var fast, slow := TailMean(history, windows.fast), TailMean(history, windows.slow);
      var held := P.Held(portfolio.Snapshot(), event.symbol);
      var quantity, direction := 0.0, Hold;
      if fast > slow && held <= tolerance {
        var equity := portfolio.Equity();
        quantity := if event.open != 0.0 then equity * windows.exposure / event.open else 0.0;
        direction := BuySignal;
      } else if fast <= slow && held > 0.0 {
        quantity := held;
        direction := ExitSignal;
      }
      return Signal(direction, quantity, event.timestamp);
    }

    method Observe(event: MarketEvent)
      modifies this
      ensures history == old(history) + [event.close]
    {
      history := history + [event.close];
    }
  }

  class PaperSession {
    const setup: Setup
    const portfolio: PaperPortfolio
    const risk: RiskEngine
    const strategy: SignalStrategy
    var pending: seq<Pending>
    var orders: seq<Order>
    var submitted: seq<nat>
    var fills: seq<FillRow>
    var signals: seq<Signal>
    var requested: real
    var filled: real
    var partials: nat
    var failed: bool

    ghost function Value(): State
      reads this, portfolio, risk, strategy
    {
      State(portfolio.Value(), strategy.history, risk.seen, pending, orders, submitted, fills, signals,
            requested, filled, partials, failed)
    }

    /** The parts were built from the session's own setup. */
    ghost predicate Valid()
      reads this, portfolio, risk, strategy
    {
      && setup.Valid() && Wired(Value())
      && portfolio.tolerance == risk.tolerance == strategy.tolerance == setup.execution.tolerance
      && risk.config == setup.risk && strategy.windows == setup.windows
    }

    constructor (setup: Setup)
      requires setup.Valid()
      ensures Valid() && this.setup == setup && Value() == Begin(setup)
      ensures fresh(portfolio) && fresh(risk) && fresh(strategy)
    {
      this.setup := setup;
      portfolio := new PaperPortfolio(setup.cash, setup.execution.tolerance);
      risk := new RiskEngine(setup.risk, setup.execution.tolerance);
      strategy := new SignalStrategy(setup.windows, setup.execution.tolerance);
      pending, orders, submitted, fills, signals := [], [], [], [], [];
      requested, filled, partials, failed := 0.0, 0.0, 0, false;
    }

    /** Persist the order, apply each of its fills, and queue what is left. */
    method SettleResult(x: Execution, event: MarketEvent)
      requires Valid() && x.order.id < |orders| && x.order.filled >= 0.0 && |x.fills| <= 1
      modifies this, portfolio
      ensures Valid() && Value() == Settle(old(Value()), x, event, setup.execution.tolerance)
    {
      hide P.ApplyFill;
      orders := orders[x.order.id := x.order];
      for i := 0 to |x.fills|
        invariant Valid() && orders == old(orders)[x.order.id := x.order]
        invariant i == 0 ==> Value() == old(Value()).(orders := orders)
        invariant i == 1 ==>
                    Value() == old(Value()).(
                      orders := orders,
                      book := P.ApplyFill(old(Value()).book, x.fills[0], setup.execution.tolerance),
                      fills := old(fills) + [FillRow(event.sequence, x.fills[0])],
                      filled := old(filled) + x.fills[0].quantity)
      {
        portfolio.ApplyFill(x.fills[i]);
        fills := fills + [FillRow(event.sequence, x.fills[i])];
        filled := filled + x.fills[i].quantity;
      }
      if x.order.status == PartiallyFilled {
        partials := partials + 1;
        pending := pending + [Pending(event.sequence + 1, x.order)];
      }
    }

    /** One due order's turn under what is left of the bar's liquidity. */
    method DrainOrder(order: Order, event: MarketEvent, budget: Option<real>) returns (left: Option<real>)
      requires Valid() && order.id < |orders| && order.filled >= 0.0
      modifies this, portfolio
      ensures Valid() && Drain(Value(), left) == DrainOne(setup, Drain(old(Value()), budget), order, event)
    {
      hide BrokerExecute, Settle;
      left := budget;
      if failed { return; }
      var own := setup.execution;
      var micro := own.model == Microstructure;
      var available := budget.GetOr(event.volume as real * own.maxParticipation);
      if micro {
        left := Some(available);
        if available <= 0.0 {
          pending := pending + [Pending(event.sequence + 1, order)];
          return;
        }
        if event.volume == 0 {
          failed := true;
          return;
        }
        own := own.(maxParticipation := available / event.volume as real);
        if !own.Valid() {
          failed := true;
          return;
        }
      }
      BrokerAdvances(order, event, own, setup.risk.commissionBps);
      var result := BrokerExecute(order, event, own, setup.risk.commissionBps);
      match result
      case Err(_) =>
        failed := true;
        left := budget;
      case Ok(x) =>
        SettleResult(x, event);
        if micro && x.fills != [] {
          left := Some(available - x.fills[0].quantity);
        }
    }

    method DrainDueOrders(event: MarketEvent)
      requires Valid()
      modifies this, portfolio
      ensures Valid() && Value() == DrainDue(setup, old(Value()), event)
    {
      hide DrainOne;
      SplittingKeepsQueued(pending, event.sequence, |orders|);
      var due := Due(pending, event.sequence);
      pending := Waiting(pending, event.sequence);
      var budget: Option<real> := None;
      ghost var start := Drain(Value(), None);
      assert due[..0] == [];
      for i := 0 to |due|
        invariant Valid() && Queued(due, |orders|) && |orders| == |start.state.orders|
        invariant Queued(due[..i], |start.state.orders|)
        invariant Drain(Value(), budget) == DrainAll(setup, start, due[..i], event)
      {
        assert due[..i + 1][..i] == due[..i];
        budget := DrainOrder(due[i].order, event, budget);
      }
      assert due[..|due|] == due;
    }

    method SubmitOrder(order: Order, event: MarketEvent)
      requires Valid() && order.id < |orders| && order.filled >= 0.0
      modifies this, portfolio
      ensures Valid() && Value() == Submit(setup, old(Value()), order, event)
    {
      hide BrokerExecute, Settle;
      requested := requested + order.quantity;
      if setup.execution.latency != 0 {
        pending := pending + [Pending(event.sequence + setup.execution.latency, order)];
      } else {
        BrokerAdvances(order, event, setup.execution, setup.risk.commissionBps);
        var result := BrokerExecute(order, event, setup.execution, setup.risk.commissionBps);
        match result
        case Err(_) => failed := true;
        case Ok(x) => SettleResult(x, event);
      }
    }

    /** Mark the open, take the signal, check the order it asks for, and submit it. */
    method TradeBar(event: MarketEvent)
      requires Valid()
      modifies this, portfolio, risk
      ensures Valid() && Value() == Trade(setup, old(Value()), event)
    {
      hide OnMarket, Check, Submit;
      portfolio.MarkPrice(event.symbol, event.open);
      var signal := strategy.OnEvent(event, portfolio);
      signals := signals + [signal];
      if signal.direction != Hold {
        var created := Order(|orders|, setup.symbol, if signal.direction == BuySignal then Buy else Sell,
                             signal.quantity, signal.timestamp, Created, None, 0.0, 0.0);
        var order := risk.CheckOrder(created, portfolio, event.open);
        KeptByCheck(created, portfolio.Value(), event.open, old(risk.seen), setup.risk, setup.execution.tolerance);
        orders, submitted := orders + [order], submitted + [event.sequence];
        if order.status != Rejected {
          SubmitOrder(order, event);
        }
      }
    }

    method ProcessBar(bar: Bar, sequence: nat)
      requires Valid()
      modifies this, portfolio, risk, strategy
      ensures Valid() && Value() == Step(setup, old(Value()), bar, sequence)
    {
      hide DrainDue, Trade;
      if failed { return; }
      var event := EventOf(setup, bar, sequence);
      DrainDueOrders(event);
      if failed { return; }
      TradeBar(event);
      if failed { return; }
      portfolio.MarkPrice(event.symbol, event.close);
      strategy.Observe(event);
    }
  }

  lemma KeptByCheck(o: Order, b: P.Book, price: real, seen: set<OrderKey>, c: RiskConfig, tolerance: real)
    ensures var r := Check(o, b, price, seen, c, tolerance);
            r.id == o.id && r.filled == 0.0 && KeyOf(r) == KeyOf(o)
  {
  }

  /** A whole session: one pass over the bars, numbered from one. */
  method CreateSession(setup: Setup, bars: seq<Bar>) returns (session: PaperSession)
    requires setup.Valid()
    ensures fresh(session) && session.setup == setup && session.Valid() && session.Value() == Run(setup, bars)
  {
    hide Step;
    session := new PaperSession(setup);
    assert bars[..0] == [];
    for i := 0 to |bars|
      invariant fresh(session) && fresh(session.portfolio) && fresh(session.risk) && fresh(session.strategy)
      invariant session.setup == setup && session.Valid() && session.Value() == Run(setup, bars[..i])
    {
      assert bars[..i + 1][..i] == bars[..i];
      session.ProcessBar(bars[i], i + 1);
    }
    assert bars[..|bars|] == bars;
  }
}
