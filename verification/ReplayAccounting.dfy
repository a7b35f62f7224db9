/** The books of a whole session: cash, cost basis, realised profit and fees after every bar. */
module ReplayAccounting {
  import opened Common
  import opened Execution
  import opened Portfolio
  import opened Decisions
  import opened Replay
  import opened ReplayLiquidity
  import opened ReplayCausality
  import opened ExecutionPrices
  import opened ReplayPrices

  /** Equal in everything a fill moves; mark prices may differ. */
  predicate SameMoney(a: Book, b: Book) { a == b.(last := a.last) }

  /** The portfolio is what its own fill table says it is. */
  ghost predicate Mirrored(s: Setup, st: State) {
    && SameMoney(st.book, FoldFills(Open(s.cash), FillsOf(st.fills), s.execution.tolerance))
    && Positive(FillsOf(st.fills))
  }

  lemma SettleMirrors(s: Setup, st: State, order: Order, x: Execution, event: MarketEvent)
    requires Mirrored(s, st) && Wired(st) && order.id < |st.orders|
    requires Advances(order, x, s.execution.tolerance) && x.order.filled >= 0.0
    ensures Mirrored(s, Settle(st, x, event, s.execution.tolerance))
  {
    hide ApplyFill;
    if x.fills != [] {
      FillRowAppended(st.fills, FillRow(event.sequence, x.fills[0]));
      SameMoneyMoves(st.book, FoldFills(Open(s.cash), FillsOf(st.fills), s.execution.tolerance), x.fills[0],
                     s.execution.tolerance);
    }
  }

  lemma SameMoneyMoves(a: Book, b: Book, f: Fill, tolerance: real)
    requires SameMoney(a, b)
    ensures SameMoney(ApplyFill(a, f, tolerance), ApplyFill(b, f, tolerance))
  {
  }

  lemma FillRowAppended(rows: seq<FillRow>, row: FillRow)
    ensures FillsOf(rows + [row]) == FillsOf(rows) + [row.fill]
    ensures (FillsOf(rows) + [row.fill])[..|rows|] == FillsOf(rows)
  {
  }

  lemma DrainOneMirrors(s: Setup, d: Drain, order: Order, event: MarketEvent)
    requires Mirrored(s, d.state) && Wired(d.state) && order.filled >= 0.0 && order.id < |d.state.orders|
    ensures Mirrored(s, DrainOne(s, d, order, event).state)
  {
    BrokerAdvances(order, event, TurnConfig(s, d, event), s.risk.commissionBps);
    DrainOneCases(s, d, order, event);
    hide BrokerExecute, Advances, Settle, DrainOne, Available;
    if Turn(s, d, order, event).Ok? {
      SettleMirrors(s, d.state, order, Turn(s, d, order, event).value, event);
    }
  }

  lemma {:induction false} DrainAllMirrors(s: Setup, d: Drain, due: seq<Pending>, event: MarketEvent)
    requires Mirrored(s, d.state) && Wired(d.state) && Queued(due, |d.state.orders|)
    ensures Mirrored(s, DrainAll(s, d, due, event).state)
  {
    hide DrainOne, Mirrored;
    if due != [] {
      DrainAllMirrors(s, d, due[..|due| - 1], event);
      DrainOneMirrors(s, DrainAll(s, d, due[..|due| - 1], event), due[|due| - 1].order, event);
    }
  }

  lemma TradeMirrors(s: Setup, st: State, event: MarketEvent)
    requires s.Valid() && Wired(st) && Mirrored(s, st)
    ensures Mirrored(s, Trade(s, st, event))
  {
    hide OnMarket, Check, BrokerExecute, Advances, FoldFills;
    var marked := st.(book := MarkPrice(st.book, event.symbol, event.open));
    var signal := OnMarket(s.windows, marked.history, event, marked.book, s.execution.tolerance);
    var u := marked.(signals := marked.signals + [signal]);
    if signal.direction != Hold {
      var order := Check(NewOrder(u, s, signal), u.book, event.open, u.seen, s.risk, s.execution.tolerance);
      CheckKeepsId(NewOrder(u, s, signal), u.book, event.open, u.seen, s.risk, s.execution.tolerance);
      BrokerAdvances(order, event, s.execution, s.risk.commissionBps);
      var r := BrokerExecute(order, event, s.execution, s.risk.commissionBps);
      if order.status != Rejected && s.execution.latency == 0 && r.Ok? {
        var v := u.(orders := u.orders + [order], submitted := u.submitted + [event.sequence],
                    seen := u.seen + {KeyOf(order)}, requested := u.requested + order.quantity);
        SettleMirrors(s, v, order, r.value, event);
      }
      hide Settle;
    }
  }

  lemma {:induction false} RunMirrors(s: Setup, bars: seq<Bar>)
    requires s.Valid()
    ensures Mirrored(s, Run(s, bars))
  {
    if bars != [] {
      var st, event := Run(s, bars[..|bars| - 1]), EventOf(s, bars[|bars| - 1], |bars|);
      RunMirrors(s, bars[..|bars| - 1]);
      SplittingKeepsQueued(st.pending, event.sequence, |st.orders|);
      DrainAllMirrors(s, Drain(st.(pending := Waiting(st.pending, event.sequence)), None),
                      Due(st.pending, event.sequence), event);
      TradeMirrors(s, DrainDue(s, st, event), event);
      hide DrainAll, Trade, FoldFills;
    }
  }

  /**
    After every bar of every run, whatever the model and the latency: the accounting identity holds up to exactly
    the money credited for oversold quantity and the cost of remainders the tolerance dropped.
   */
  lemma RunAccounting(s: Setup, bars: seq<Bar>)
    requires s.Valid()
    ensures var st := Run(s, bars);
            var fills := FillsOf(st.fills);
            var off := Phantom(Open(s.cash), fills, s.execution.tolerance)
                       - Dropped(Open(s.cash), fills, s.execution.tolerance);
            && LongOnly(st.book) && st.book.costs == FeesOn(fills)
            && st.book.cash + CostBasis(st.book) == s.cash + st.book.realized - BuyFees(fills) + off
            && Equity(st.book) == s.cash + st.book.realized + Unrealized(st.book) - BuyFees(fills) + off
  {
    hide Run, FoldFills, Phantom, Dropped, BuyFees, FeesOn, Unrealized, Equity;
    RunMirrors(s, bars);
    var st := Run(s, bars);
    AccountingIdentity(s.cash, FillsOf(st.fills), s.execution.tolerance);
    EquitySplits(st.book);
  }

  // ----- At most one bar of latency, whole fills -----

  /** Orders execute in full, on their own bar or the next. */
  predicate Prompt(s: Setup) { s.execution.latency <= 1 && s.execution.model != Microstructure }

  /** Orders execute in full on their own bar. */
  predicate Immediate(s: Setup) { s.execution.latency == 0 && s.execution.model != Microstructure }

  /** Nothing was oversold and nothing was dropped. */
  ghost predicate Balanced(s: Setup, st: State) {
    && Mirrored(s, st) && !st.failed
    && Phantom(Open(s.cash), FillsOf(st.fills), s.execution.tolerance) == 0.0
    && Dropped(Open(s.cash), FillsOf(st.fills), s.execution.tolerance) == 0.0
  }

  /** Nothing waits either. */
  ghost predicate Clean(s: Setup, st: State) { Balanced(s, st) && st.pending == [] }

  /** A waiting order that the next bar fills whole; a waiting sale is of exactly what is held. */
  ghost predicate Arriving(s: Setup, st: State, p: Pending, sequence: nat) {
    && p.due == sequence && Wanting(p.order) && p.order.filled == 0.0
    && p.order.id < |st.orders| && p.order.symbol == s.symbol
    && (p.order.side == Sell ==> p.order.quantity == Held(st.book, s.symbol))
  }

  /** Between bars: nothing waits, or one order that arrives on the next bar. */
  ghost predicate Expecting(s: Setup, st: State, sequence: nat) {
    && Wired(st) && Balanced(s, st) && |st.pending| <= 1
    && (st.pending != [] ==> Arriving(s, st, st.pending[0], sequence))
  }

  lemma WholeFill(s: Setup, order: Order, event: MarketEvent)
    requires s.Valid() && s.execution.model != Microstructure && Wanting(order)
    ensures var r := BrokerExecute(order, event, s.execution, s.risk.commissionBps);
            && r.Ok? && |r.value.fills| == 1 && Advances(order, r.value, s.execution.tolerance)
            && r.value.fills[0].quantity == order.Unfilled() && r.value.order.status == Filled
  {
    FillsOnce(order, event, s.execution, s.risk.commissionBps);
    hide BrokerExecute;
  }

  /** The exit signal asks for exactly what is held. */
  lemma ExitAsksForHeld(w: Windows, history: seq<real>, event: MarketEvent, book: Book, tolerance: real)
    requires w.Valid()
    ensures var signal := OnMarket(w, history, event, book, tolerance);
            signal.direction == ExitSignal ==> signal.quantity == Held(book, event.symbol)
  {
    hide TailMean, Equity;
  }

  lemma CheckedFields(s: Setup, u: State, signal: Signal, price: real)
    ensures var o := Check(NewOrder(u, s, signal), u.book, price, u.seen, s.risk, s.execution.tolerance);
            && o.id == |u.orders| && o.symbol == s.symbol && o.quantity == signal.quantity
            && o.side == (if signal.direction == BuySignal then Buy else Sell)
            && o.filled == 0.0
            && (o.status != Rejected ==>
                  Wanting(o) && (o.side == Buy ==> CashRequired(o, price, s.risk) <= u.book.cash))
  {
    hide Held, Exposure, Equity;
  }

  /** Selling exactly what is held oversells nothing and leaves nothing to drop. */
  lemma SellingAllIsClean(b: Book, f: Fill, tolerance: real)
    requires f.gross == f.price * f.quantity && (f.side == Sell ==> f.quantity == Held(b, f.symbol))
    ensures Oversold(b, f) == 0.0 && DroppedCost(b, f, tolerance) == 0.0
  {
  }

  lemma CleanSettle(s: Setup, st: State, order: Order, x: Execution, event: MarketEvent)
    requires Clean(s, st) && Wired(st) && order.id < |st.orders| && order.filled == 0.0
    requires Advances(order, x, s.execution.tolerance) && |x.fills| == 1 && x.order.filled >= 0.0
    requires x.order.status == Filled && x.fills[0].quantity == order.quantity
    requires order.side == Sell ==> order.quantity == Held(st.book, order.symbol)
    ensures Clean(s, Settle(st, x, event, s.execution.tolerance))
  {
    hide ApplyFill, Oversold, DroppedCost;
    SettleMirrors(s, st, order, x, event);
    FillRowAppended(st.fills, FillRow(event.sequence, x.fills[0]));
    SellingAllIsClean(FoldFills(Open(s.cash), FillsOf(st.fills), s.execution.tolerance), x.fills[0],
                      s.execution.tolerance);
  }

  lemma TradeStaysClean(s: Setup, st: State, event: MarketEvent)
    requires s.Valid() && Immediate(s) && Wired(st) && Clean(s, st) && event.symbol == s.symbol
    ensures Clean(s, Trade(s, st, event))
  {
    hide OnMarket, Check, BrokerExecute, Advances, FoldFills, Phantom, Dropped, Settle, Wanting;
    var marked := st.(book := MarkPrice(st.book, event.symbol, event.open));
    var signal := OnMarket(s.windows, marked.history, event, marked.book, s.execution.tolerance);
    ExitAsksForHeld(s.windows, marked.history, event, marked.book, s.execution.tolerance);
    var u := marked.(signals := marked.signals + [signal]);
    if signal.direction != Hold {
      var order := Check(NewOrder(u, s, signal), u.book, event.open, u.seen, s.risk, s.execution.tolerance);
      CheckedFields(s, u, signal, event.open);
      if order.status != Rejected {
        WholeFill(s, order, event);
        var v := u.(orders := u.orders + [order], submitted := u.submitted + [event.sequence],
                    seen := u.seen + {KeyOf(order)}, requested := u.requested + order.quantity);
        CleanSettle(s, v, order, BrokerExecute(order, event, s.execution, s.risk.commissionBps).value, event);
      }
    }
  }

  lemma NothingToDrain(s: Setup, st: State, event: MarketEvent)
    requires Wired(st) && st.pending == []
    ensures DrainDue(s, st, event) == st
  {
  }

  lemma {:induction false} RunStaysClean(s: Setup, bars: seq<Bar>)
    requires s.Valid() && Immediate(s)
    ensures Clean(s, Run(s, bars))
  {
    if bars != [] {
      var st, event := Run(s, bars[..|bars| - 1]), EventOf(s, bars[|bars| - 1], |bars|);
      RunStaysClean(s, bars[..|bars| - 1]);
      NothingToDrain(s, st, event);
      TradeStaysClean(s, st, event);
      hide DrainDue, Trade, FoldFills, Phantom, Dropped;
    }
  }

  /** The order that waited fills whole before anything else happens on the next bar. */
  lemma DrainCleans(s: Setup, st: State, event: MarketEvent)
    requires s.Valid() && s.execution.model != Microstructure && Expecting(s, st, event.sequence)
    ensures Clean(s, DrainDue(s, st, event))
  {
    hide Mirrored, FoldFills, Phantom, Dropped, BrokerExecute, Advances, DrainDue, Settle, Wanting;
    if st.pending == [] {
      NothingToDrain(s, st, event);
    } else {
      var order := st.pending[0].order;
      var rest := st.(pending := []);
      HeadDue(s, st, event);
      assert st.pending[1..] == [];
      WholeFill(s, order, event);
      MirroredIgnoresQueue(s, st, rest);
      WantingIsExecutable(order);
      CleanSettle(s, rest, order, BrokerExecute(order, event, s.execution, s.risk.commissionBps).value, event);
    }
  }

  lemma WantingIsExecutable(order: Order)
    requires Wanting(order)
    ensures order.Executable() && order.filled >= 0.0
  {
  }

  lemma MirroredIgnoresQueue(s: Setup, st: State, t: State)
    requires Mirrored(s, st) && t.fills == st.fills && SameMoney(t.book, st.book)
    ensures Mirrored(s, t)
  {
  }

  /** With one bar of latency an accepted order is left to arrive on the next bar. */
  lemma TradeExpects(s: Setup, st: State, event: MarketEvent)
    requires s.Valid() && s.execution.latency == 1 && Wired(st) && Clean(s, st) && event.symbol == s.symbol
    ensures Expecting(s, Trade(s, st, event), event.sequence + 1)
  {
    hide OnMarket, Check, FoldFills, Phantom, Dropped, Wanting, Mirrored;
    var marked := st.(book := MarkPrice(st.book, event.symbol, event.open));
    var signal := OnMarket(s.windows, marked.history, event, marked.book, s.execution.tolerance);
    ExitAsksForHeld(s.windows, marked.history, event, marked.book, s.execution.tolerance);
    var u := marked.(signals := marked.signals + [signal]);
    MirroredIgnoresQueue(s, st, Trade(s, st, event));
    if signal.direction != Hold {
      CheckedFields(s, u, signal, event.open);
    }
  }

  lemma {:induction false} RunExpects(s: Setup, bars: seq<Bar>)
    requires s.Valid() && Prompt(s)
    ensures Expecting(s, Run(s, bars), |bars| + 1)
  {
    if s.execution.latency == 0 {
      RunStaysClean(s, bars);
    } else if bars != [] {
      hide DrainDue, Trade, Balanced, Arriving;
      var st, event := Run(s, bars[..|bars| - 1]), EventOf(s, bars[|bars| - 1], |bars|);
      RunExpects(s, bars[..|bars| - 1]);
      DrainCleans(s, st, event);
      TradeExpects(s, DrainDue(s, st, event), event);
      CloseKeepsExpecting(s, Trade(s, DrainDue(s, st, event), event), event, event.sequence + 1);
      NotFailed(s, st, event);
    }
  }

  lemma NotFailed(s: Setup, st: State, event: MarketEvent)
    requires s.Valid() && s.execution.model != Microstructure && Expecting(s, st, event.sequence)
    ensures !st.failed && !DrainDue(s, st, event).failed
  {
    DrainCleans(s, st, event);
    hide DrainDue, Mirrored, Phantom, Dropped;
  }

  lemma CloseKeepsExpecting(s: Setup, st: State, event: MarketEvent, sequence: nat)
    requires Expecting(s, st, sequence)
    ensures Expecting(s, AfterClose(st, event), sequence) && !st.failed
  {
    hide FoldFills, Phantom, Dropped;
  }

  /**
    With at most one bar of latency and whole fills, after every bar: cash plus cost basis is the opening cash plus
    realised profit less the fees on buys; equity adds the unrealised profit; costs are all the fees; and no position
    is negative.
   */
  lemma {:induction false} PromptAccounting(s: Setup, bars: seq<Bar>)
    requires s.Valid() && Prompt(s)
    ensures var st := Run(s, bars);
            var fills := FillsOf(st.fills);
            && LongOnly(st.book) && st.book.costs == FeesOn(fills)
            && st.book.cash + CostBasis(st.book) == s.cash + st.book.realized - BuyFees(fills)
            && Equity(st.book) == s.cash + st.book.realized + Unrealized(st.book) - BuyFees(fills)
  {
    hide Run, FoldFills, Phantom, Dropped, BuyFees, FeesOn, Unrealized, Equity;
    RunAccounting(s, bars);
    RunExpects(s, bars);
  }

  // ----- Any latency: when the books of a session balance -----

  /** Outside MICROSTRUCTURE, with a sale price above zero left by spread and slippage. */
  predicate PricesStayPositive(s: Setup) {
    && s.execution.model != Microstructure && s.execution.slippageBps < 10000.0 && s.execution.fixedSpreadBps < 20000.0
  }

  lemma ChargedIsPositive(s: Setup, bar: Bar, f: Fill)
    requires s.Valid() && PricesStayPositive(s) && bar.open > 0.0 && ChargedOn(s, bar, f)
    ensures f.price > 0.0 && f.gross == f.price * f.quantity
  {
    hide Charges, Synthetic;
    SyntheticIsPositive(bar.open, s.execution);
    ChargedPrice(f, Synthetic(bar.open, s.execution), bar.volume, s.execution, s.risk.commissionBps);
    var quoted, slip := Quoted(f.side, Synthetic(bar.open, s.execution), s.execution), Share(s.execution.slippageBps);
    PositiveProduct(quoted, 1.0 + slip);
    PositiveProduct(quoted, 1.0 - slip);
  }

  lemma SyntheticIsPositive(open: real, c: Config)
    requires open > 0.0 && 0.0 <= c.fixedSpreadBps < 20000.0
    ensures Synthetic(open, c).bid > 0.0 && Synthetic(open, c).ask > 0.0 && Synthetic(open, c).mid > 0.0
  {
    PositiveProduct(open, 1.0 - Share(c.fixedSpreadBps) / 2.0);
    PositiveProduct(open, 1.0 + Share(c.fixedSpreadBps) / 2.0);
  }

  lemma ChargedPrice(f: Fill, q: Quotes, volume: int, c: Config, commissionBps: real)
    requires Charges(f, q, volume, c, commissionBps) && c.model != Microstructure
    ensures f.gross == f.price * f.quantity
    ensures f.price == Quoted(f.side, q, c) * (if f.side == Buy then 1.0 + Share(c.slippageBps) else 1.0 - Share(c.slippageBps))
  {
    hide Quoted, Share;
  }

  lemma {:induction false} FillsArePriced(s: Setup, bars: seq<Bar>)
    requires s.Valid() && PricesStayPositive(s) && forall i :: 0 <= i < |bars| ==> bars[i].open > 0.0
    ensures Priced(FillsOf(Run(s, bars).fills))
  {
    hide Run, ChargedOn;
    FillsAreCharged(s, bars);
    forall k | 0 <= k < |Run(s, bars).fills|
      ensures var f := Run(s, bars).fills[k].fill; f.price > 0.0 && f.gross == f.price * f.quantity
    {
      var row := Run(s, bars).fills[k];
      ChargedIsPositive(s, bars[row.bar - 1], row.fill);
    }
  }

  /**
    For every session, whatever the model and latency, whose fills have positive prices: apart from the cost of dropped
    remainders the books are never short, and they balance exactly when every sale was of quantity held.
   */
  lemma {:induction false} BooksBalanceIffCovered(s: Setup, bars: seq<Bar>)
    requires s.Valid() && Priced(FillsOf(Run(s, bars).fills))
    ensures var st := Run(s, bars);
            var fills := FillsOf(st.fills);
            var books := st.book.cash + CostBasis(st.book) + Dropped(Open(s.cash), fills, s.execution.tolerance);
            var due := s.cash + st.book.realized - BuyFees(fills);
            books >= due && (books == due <==> Covered(Open(s.cash), fills, s.execution.tolerance))
  {
    hide Run, FoldFills, Phantom, Dropped, BuyFees, FeesOn, Unrealized, Equity, Covered, Priced;
    RunAccounting(s, bars);
    PhantomSign(Open(s.cash), FillsOf(Run(s, bars).fills), s.execution.tolerance);
  }

  // ----- Cash under IDEAL execution -----

  /** IDEAL execution with rates of at most 10,000 bps. */
  predicate Capped(s: Setup) {
    s.execution.model == Ideal && s.risk.commissionBps <= 10000.0 && s.risk.slippageBps <= 10000.0
  }

  predicate Bounded(s: Setup) { Immediate(s) && Capped(s) }

  function Sign(side: Side): real { if side == Buy then 1.0 else -1.0 }

  lemma IdealPrice(side: Side, quantity: real, s: Setup, bar: Bar, sequence: nat)
    requires s.Valid() && s.execution.model == Ideal
    ensures var event := EventOf(s, bar, sequence);
            Price(side, quantity, MarketStateOf(event, s.execution), s.execution)
            == bar.open * (1.0 + Sign(side) * (s.risk.slippageBps / 10000.0))
  {
  }

  /** What the broker moves in cash for a whole IDEAL fill. */
  lemma IdealFill(s: Setup, order: Order, bar: Bar, sequence: nat)
    requires s.Valid() && Capped(s) && Wanting(order) && order.filled == 0.0
    ensures var r := BrokerExecute(order, EventOf(s, bar, sequence), s.execution, s.risk.commissionBps);
            && r.Ok? && |r.value.fills| == 1 && r.value.order.status == Filled
            && r.value.order.id == order.id && r.value.order.filled >= 0.0
            && var f := r.value.fills[0];
               && f.side == order.side && f.quantity == order.quantity
               && f.gross == f.price * f.quantity && f.fees == f.gross * (s.risk.commissionBps / 10000.0)
               && f.price == bar.open * (1.0 + Sign(order.side) * (s.risk.slippageBps / 10000.0))
  {
    var event := EventOf(s, bar, sequence);
    IdealPrice(order.side, order.quantity, s, bar, sequence);
    WholeFill(s, order, event);
    hide Price, MarketStateOf, Impact, Reference;
  }

  lemma BuyCharge(price: real, quantity: real, slip: real, fee: real)
    ensures var gross := price * (1.0 + slip) * quantity;
            gross + gross * fee == quantity * price * (1.0 + slip) * (1.0 + fee)
  {
    var gross := price * (1.0 + slip) * quantity;
    assert gross == quantity * price * (1.0 + slip);
  }

  lemma SaleProceeds(price: real, quantity: real, slip: real, fee: real)
    requires price >= 0.0 && quantity >= 0.0 && 0.0 <= slip <= 1.0 && 0.0 <= fee <= 1.0
    ensures var gross := price * (1.0 - slip) * quantity; gross - gross * fee >= 0.0
  {
    var gross := price * (1.0 - slip) * quantity;
    assert price * (1.0 - slip) >= 0.0;
    assert gross >= 0.0;
    assert gross * (1.0 - fee) >= 0.0;
  }

  /** The risk estimate at the open of the bar that fills an order is the broker's charge; a sale only brings cash. */
  lemma IdealCash(s: Setup, b: Book, order: Order, bar: Bar, sequence: nat)
    requires s.Valid() && Capped(s) && Wanting(order) && order.filled == 0.0 && bar.open >= 0.0
    ensures var r := BrokerExecute(order, EventOf(s, bar, sequence), s.execution, s.risk.commissionBps);
            && r.Ok? && |r.value.fills| == 1
            && var after := ApplyFill(b, r.value.fills[0], s.execution.tolerance).cash;
               && (order.side == Buy ==> b.cash - after == CashRequired(order, bar.open, s.risk))
               && (order.side == Sell ==> after >= b.cash)
  {
    hide BrokerExecute, ApplyFill, CashRequired, Wanting;
    IdealFill(s, order, bar, sequence);
    WantsSomething(order);
    var f := BrokerExecute(order, EventOf(s, bar, sequence), s.execution, s.risk.commissionBps).value.fills[0];
    FillMovesCash(b, f, order, bar.open, s.risk, s.execution.tolerance);
  }

  lemma WantsSomething(order: Order)
    requires Wanting(order) && order.filled == 0.0
    ensures order.quantity > 0.0
  {
  }

  /** The money of a fill at the marked open, against the estimate at that open. */
  lemma FillMovesCash(b: Book, f: Fill, order: Order, price: real, c: RiskConfig, tolerance: real)
    requires f.side == order.side && f.quantity == order.quantity >= 0.0 && price >= 0.0
    requires f.gross == f.price * f.quantity && f.fees == f.gross * (c.commissionBps / 10000.0)
    requires f.price == price * (1.0 + Sign(order.side) * (c.slippageBps / 10000.0))
    requires 0.0 <= c.slippageBps <= 10000.0 && 0.0 <= c.commissionBps <= 10000.0
    ensures var after := ApplyFill(b, f, tolerance).cash;
            && (order.side == Buy ==> b.cash - after == CashRequired(order, price, c))
            && (order.side == Sell ==> after >= b.cash)
  {
    var slip, fee := c.slippageBps / 10000.0, c.commissionBps / 10000.0;
    if order.side == Buy {
      assert f.price == price * (1.0 + slip);
      BuyCharge(price, order.quantity, slip, fee);
    } else {
      assert f.price == price * (1.0 - slip);
      SaleProceeds(price, order.quantity, slip, fee);
    }
    hide AfterBuy, AfterSell, Gain;
  }

  /** So an accepted order that is filled on its own bar never overdraws. */
  lemma NeverOverdraws(s: Setup, b: Book, order: Order, bar: Bar, sequence: nat)
    requires s.Valid() && Capped(s) && Wanting(order) && order.filled == 0.0 && bar.open >= 0.0 && b.cash >= 0.0
    ensures var r := BrokerExecute(order, EventOf(s, bar, sequence), s.execution, s.risk.commissionBps);
            && r.Ok? && |r.value.fills| == 1
            && (ApplyFill(b, r.value.fills[0], s.execution.tolerance).cash >= 0.0 <==>
                  order.side == Buy ==> CashRequired(order, bar.open, s.risk) <= b.cash)
  {
    hide BrokerExecute, ApplyFill, CashRequired;
    IdealCash(s, b, order, bar, sequence);
  }

  lemma TradeKeepsCash(s: Setup, st: State, bar: Bar, sequence: nat)
    requires s.Valid() && Bounded(s) && Wired(st) && st.book.cash >= 0.0 && bar.open >= 0.0
    ensures Trade(s, st, EventOf(s, bar, sequence)).book.cash >= 0.0
  {
    hide OnMarket, Check, BrokerExecute, ApplyFill, CashRequired;
    var event := EventOf(s, bar, sequence);
    var marked := st.(book := MarkPrice(st.book, event.symbol, event.open));
    var signal := OnMarket(s.windows, marked.history, event, marked.book, s.execution.tolerance);
    var u := marked.(signals := marked.signals + [signal]);
    if signal.direction != Hold {
      var order := Check(NewOrder(u, s, signal), u.book, event.open, u.seen, s.risk, s.execution.tolerance);
      CheckedFields(s, u, signal, event.open);
      if order.status != Rejected {
        NeverOverdraws(s, u.book, order, bar, sequence);
      }
    }
  }

  /** Under IDEAL execution without latency, with rates of at most 10,000 bps, cash is never negative after any bar. */
  lemma {:induction false} CashNeverNegative(s: Setup, bars: seq<Bar>)
    requires s.Valid() && Bounded(s)
    requires forall i :: 0 <= i < |bars| ==> bars[i].open >= 0.0
    ensures Run(s, bars).book.cash >= 0.0
  {
    if bars != [] {
      var front, last := bars[..|bars| - 1], bars[|bars| - 1];
      CashNeverNegative(s, front);
      RunStaysClean(s, front);
      NothingToDrain(s, Run(s, front), EventOf(s, last, |bars|));
      TradeKeepsCash(s, Run(s, front), last, |bars|);
      hide DrainDue, Trade, Clean;
    }
  }
}
