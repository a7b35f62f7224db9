/** What each bar of a session decides, and what every accepted order was held to. */
module ReplayDecisions {
  import opened Common
  import opened Execution
  import opened Portfolio
  import opened PortfolioFlows
  import opened Decisions
  import opened RiskLimits
  import opened Replay
  import opened ReplayLiquidity
  import opened ReplayCausality
  import opened ReplayLedger
  import opened ReplayOrders
  import opened ReplayAccounting

  // ----- The money of a session -----

  /**
    After every bar of every session: cash is the opening cash and what each fill brought; and realised profit is what
    sales brought less what purchases cost apart from what is still held, up to the exact deviations.
   */
  lemma SessionMoney(s: Setup, bars: seq<Bar>)
    requires s.Valid()
    ensures var st := Run(s, bars);
            var fills := FillsOf(st.fills);
            && st.book.cash == s.cash + Inflows(fills)
            && st.book.realized == Proceeds(fills) - (Spent(fills) - CostBasis(st.book))
                                   - Phantom(Open(s.cash), fills, s.execution.tolerance)
                                   + Dropped(Open(s.cash), fills, s.execution.tolerance)
  {
    hide Run, FoldFills, Phantom, Dropped, Inflows, Proceeds, Spent;
    RunMirrors(s, bars);
    var fills := FillsOf(Run(s, bars).fills);
    CashFollowsFills(Open(s.cash), fills, s.execution.tolerance);
    ProfitFollowsFills(s.cash, fills, s.execution.tolerance);
  }

  // ----- One bar -----

  /** The book a bar decides with: what the drain left, marked at the open. */
  function AtOpen(s: Setup, st: State, bar: Bar): Book { MarkPrice(st.book, s.symbol, bar.open) }

  /** The order the bar's signal asks for. */
  function Asked(s: Setup, st: State, signal: Signal): Order {
    Order(|st.orders|, s.symbol, if signal.direction == BuySignal then Buy else Sell, signal.quantity,
          signal.timestamp, Created, None, 0.0, 0.0)
  }

  /** The order keeps everything it was created with. */
  predicate SameRequest(a: Order, b: Order) {
    a.id == b.id && a.symbol == b.symbol && a.side == b.side && a.quantity == b.quantity && a.createdAt == b.createdAt
  }

  /**
    A bar adds one signal, and one order unless the signal is to hold: for what the signal asks, rejected exactly when it
    breaks a limit at the open, for the first it breaks. Earlier orders keep what they ask for.
   */
  lemma TradeDecides(s: Setup, st: State, bar: Bar, sequence: nat)
    requires s.Valid() && Wired(st)
    ensures var t := Trade(s, st, EventOf(s, bar, sequence));
            var signal := OnMarket(s.windows, st.history, EventOf(s, bar, sequence), AtOpen(s, st, bar), s.execution.tolerance);
            var asked, n := Asked(s, st, signal), |st.orders|;
            && t.signals == st.signals + [signal]
            && (signal.direction == Hold ==> t.orders == st.orders && t.book == AtOpen(s, st, bar))
            && (signal.direction != Hold ==>
                  && |t.orders| == n + 1 && t.orders[..n] == st.orders && SameRequest(t.orders[n], asked)
                  && (t.orders[n].status == Rejected <==>
                        exists reason: Reason ::
                          Breaks(reason, asked, AtOpen(s, st, bar), bar.open, st.seen, s.risk, s.execution.tolerance))
                  && (t.orders[n].status == Rejected ==>
                        && t.orders[n].reason.Some? && t.book == AtOpen(s, st, bar) && t.pending == st.pending
                        && Breaks(t.orders[n].reason.value, asked, AtOpen(s, st, bar), bar.open, st.seen, s.risk,
                                  s.execution.tolerance)
                        && forall reason: Reason :: Place(reason) < Place(t.orders[n].reason.value) ==>
                             !Breaks(reason, asked, AtOpen(s, st, bar), bar.open, st.seen, s.risk,
                                     s.execution.tolerance)))
  {
    hide OnMarket, Check, BrokerExecute, ApplyFill, Breaks;
    var event := EventOf(s, bar, sequence);
    var marked := st.(book := AtOpen(s, st, bar));
    var signal := OnMarket(s.windows, marked.history, event, marked.book, s.execution.tolerance);
    var u := marked.(signals := marked.signals + [signal]);
    if signal.direction != Hold {
      var asked := NewOrder(u, s, signal);
      assert asked == Asked(s, st, signal);
      CheckAnswers(asked, u.book, event.open, u.seen, s.risk, s.execution.tolerance);
      var order := Check(asked, u.book, event.open, u.seen, s.risk, s.execution.tolerance);
      BrokerAdvances(order, event, s.execution, s.risk.commissionBps);
      AppendedRow(st.orders, order);
    }
  }

  lemma AppendedRow(orders: seq<Order>, order: Order)
    ensures (orders + [order])[..|orders|] == orders && (orders + [order])[|orders|] == order
    ensures forall o: Order :: (orders + [order])[|orders| := o] == orders + [o]
  {
  }

  // ----- What every session keeps about its orders -----

  /** An order as it was copied from its row, and neither is rejected. */
  predicate Listed(orders: seq<Order>, o: Order) {
    o.id < |orders| && SameRequest(o, orders[o.id]) && o.status != Rejected && orders[o.id].status != Rejected
  }

  predicate AllListed(orders: seq<Order>, queue: seq<Pending>) {
    forall i :: 0 <= i < |queue| ==> Listed(orders, queue[i].order)
  }

  /** Rows are only added, keep what they ask for, and are never rejected later nor revived. */
  predicate Kept(before: seq<Order>, after: seq<Order>) {
    && |before| <= |after|
    && forall i :: 0 <= i < |before| ==>
         SameRequest(after[i], before[i]) && (after[i].status == Rejected <==> before[i].status == Rejected)
  }

  lemma StaysListed(before: seq<Order>, after: seq<Order>, queue: seq<Pending>)
    requires Kept(before, after) && AllListed(before, queue)
    ensures AllListed(after, queue)
  {
  }

  lemma SettleKeeps(st: State, order: Order, x: Execution, event: MarketEvent, tolerance: real)
    requires Wired(st) && Listed(st.orders, order) && x.order.filled >= 0.0 && Advances(order, x, tolerance)
    requires AllListed(st.orders, st.pending)
    ensures var t := Settle(st, x, event, tolerance);
            && Kept(st.orders, t.orders) && |t.orders| == |st.orders| && AllListed(t.orders, t.pending)
            && t.seen == st.seen && t.history == st.history && t.submitted == st.submitted
  {
    hide ApplyFill;
    var t := Settle(st, x, event, tolerance);
    StaysListed(st.orders, t.orders, st.pending);
  }

  lemma DrainOneKeeps(s: Setup, d: Drain, order: Order, event: MarketEvent)
    requires Wired(d.state) && order.filled >= 0.0 && Listed(d.state.orders, order)
    requires AllListed(d.state.orders, d.state.pending)
    ensures var t := DrainOne(s, d, order, event).state;
            && Kept(d.state.orders, t.orders) && |t.orders| == |d.state.orders| && AllListed(t.orders, t.pending)
            && t.seen == d.state.seen && t.history == d.state.history && t.submitted == d.state.submitted
  {
    BrokerAdvances(order, event, TurnConfig(s, d, event), s.risk.commissionBps);
    DrainOneCases(s, d, order, event);
    hide BrokerExecute, Advances, Settle, DrainOne, Available;
    if Turn(s, d, order, event).Ok? {
      SettleKeeps(d.state, order, Turn(s, d, order, event).value, event, s.execution.tolerance);
    }
  }

  lemma {:induction false} DrainAllKeeps(s: Setup, d: Drain, due: seq<Pending>, event: MarketEvent)
    requires Wired(d.state) && Queued(due, |d.state.orders|) && AllListed(d.state.orders, due)
    requires AllListed(d.state.orders, d.state.pending)
    ensures var t := DrainAll(s, d, due, event).state;
            && Kept(d.state.orders, t.orders) && |t.orders| == |d.state.orders| && AllListed(t.orders, t.pending)
            && t.seen == d.state.seen && t.history == d.state.history && t.submitted == d.state.submitted
  {
    hide DrainOne;
    if due != [] {
      var front := due[..|due| - 1];
      DrainAllKeeps(s, d, front, event);
      StaysListed(d.state.orders, DrainAll(s, d, front, event).state.orders, due);
      DrainOneKeeps(s, DrainAll(s, d, front, event), due[|due| - 1].order, event);
    }
  }

  lemma {:induction false} SplittingKeepsListed(orders: seq<Order>, queue: seq<Pending>, sequence: nat)
    requires AllListed(orders, queue)
    ensures AllListed(orders, Due(queue, sequence)) && AllListed(orders, Waiting(queue, sequence))
  {
    hide Listed;
    if queue != [] {
      SplittingKeepsListed(orders, queue[..|queue| - 1], sequence);
    }
  }

  /** What an accepted order was held to on its bar. */
  predicate Within(s: Setup, bar: Bar, o: Order) {
    && o.createdAt == bar.timestamp && o.symbol == s.symbol
    && (o.status != Rejected ==> o.quantity > 0.0 && o.quantity * bar.open <= s.risk.maxOrderValue)
  }

  /** No two accepted orders are the same request. */
  ghost predicate NoDuplicates(st: State) {
    && (forall i :: 0 <= i < |st.orders| && st.orders[i].status != Rejected ==> KeyOf(st.orders[i]) in st.seen)
    && forall i, j :: 0 <= i < j < |st.orders| && st.orders[i].status != Rejected && st.orders[j].status != Rejected ==>
         KeyOf(st.orders[i]) != KeyOf(st.orders[j])
  }

  ghost predicate Orderly(s: Setup, bars: seq<Bar>, st: State) {
    && Wired(st) && AllListed(st.orders, st.pending) && NoDuplicates(st)
    && forall i :: 0 <= i < |st.orders| ==>
         && st.orders[i].id == i && 1 <= st.submitted[i] <= |bars|
         && Within(s, bars[st.submitted[i] - 1], st.orders[i])
  }

  /** A table that keeps its rows keeps their order. */
  lemma KeptStaysOrderly(s: Setup, bars: seq<Bar>, st: State, t: State)
    requires Orderly(s, bars, st) && Wired(t) && Kept(st.orders, t.orders) && |t.orders| == |st.orders|
    requires AllListed(t.orders, t.pending) && t.seen == st.seen && t.submitted == st.submitted
    ensures Orderly(s, bars, t)
  {
  }

  lemma DrainStaysOrderly(s: Setup, bars: seq<Bar>, st: State, event: MarketEvent)
    requires Orderly(s, bars, st)
    ensures Orderly(s, bars, DrainDue(s, st, event)) && DrainDue(s, st, event).history == st.history
  {
    hide DrainAll, Listed;
    SplittingKeepsQueued(st.pending, event.sequence, |st.orders|);
    SplittingKeepsListed(st.orders, st.pending, event.sequence);
    DrainAllKeeps(s, Drain(st.(pending := Waiting(st.pending, event.sequence)), None),
                  Due(st.pending, event.sequence), event);
    KeptStaysOrderly(s, bars, st, DrainDue(s, st, event));
  }

  /** What a trade adds beside its order row. */
  lemma TradeLists(s: Setup, st: State, bar: Bar, sequence: nat)
    requires s.Valid() && Wired(st) && AllListed(st.orders, st.pending)
    ensures var t, n := Trade(s, st, EventOf(s, bar, sequence)), |st.orders|;
            && t.history == st.history && AllListed(t.orders, t.pending) && t.submitted[..n] == st.submitted
            && (|t.orders| <= n ==> t.seen == st.seen)
            && (|t.orders| > n ==>
                  && t.submitted[n] == sequence
                  && t.seen == if t.orders[n].status == Rejected then st.seen else st.seen + {KeyOf(t.orders[n])})
  {
    hide OnMarket, Check, BrokerExecute, ApplyFill;
    var event := EventOf(s, bar, sequence);
    var marked := st.(book := AtOpen(s, st, bar));
    var signal := OnMarket(s.windows, marked.history, event, marked.book, s.execution.tolerance);
    var u := marked.(signals := marked.signals + [signal]);
    if signal.direction != Hold {
      var asked := NewOrder(u, s, signal);
      CheckedFields(s, u, signal, event.open);
      CheckAnswers(asked, u.book, event.open, u.seen, s.risk, s.execution.tolerance);
      var order := Check(asked, u.book, event.open, u.seen, s.risk, s.execution.tolerance);
      AppendedRow(st.orders, order);
      if order.status != Rejected {
        BrokerAdvances(order, event, s.execution, s.risk.commissionBps);
        StaysListed(st.orders, st.orders + [order], st.pending);
        var v := u.(orders := u.orders + [order], submitted := u.submitted + [sequence], seen := u.seen + {KeyOf(order)},
                    requested := u.requested + order.quantity);
        var r := BrokerExecute(order, event, s.execution, s.risk.commissionBps);
        if s.execution.latency == 0 && r.Ok? {
          SettleKeeps(v, order, r.value, event, s.execution.tolerance);
        }
        hide Settle;
      } else {
        StaysListed(st.orders, st.orders + [order], st.pending);
      }
    }
  }

  lemma TradeStaysOrderly(s: Setup, bars: seq<Bar>, st: State, bar: Bar)
    requires s.Valid() && bars != [] && bar == bars[|bars| - 1] && Orderly(s, bars, st)
    ensures var t := Trade(s, st, EventOf(s, bar, |bars|)); Orderly(s, bars, t) && t.history == st.history
  {
    hide OnMarket, Check, Trade, Breaks, AtOpen, Within, Listed, NoDuplicates;
    var event := EventOf(s, bar, |bars|);
    var t, n := Trade(s, st, event), |st.orders|;
    var signal := OnMarket(s.windows, st.history, event, AtOpen(s, st, bar), s.execution.tolerance);
    SignalDecides(s.windows, st.history, event, AtOpen(s, st, bar), s.execution.tolerance);
    TradeDecides(s, st, bar, |bars|);
    TradeLists(s, st, bar, |bars|);
    if |t.orders| > n {
      var asked := Asked(s, st, signal);
      if t.orders[n].status != Rejected {
        AcceptedIsWithin(asked, AtOpen(s, st, bar), bar.open, st.seen, s.risk, s.execution.tolerance);
      }
      RequestIsWithin(s, bar, asked, t.orders[n]);
      AppendStaysDistinct(st, t, t.orders[n]);
      assert forall i :: 0 <= i < n ==> t.orders[i] == st.orders[i] && t.submitted[i] == st.submitted[i];
    } else {
      assert t.orders == st.orders && t.submitted == st.submitted;
      SameDistinct(st, t);
    }
  }

  lemma RequestIsWithin(s: Setup, bar: Bar, asked: Order, o: Order)
    requires SameRequest(o, asked) && asked.createdAt == bar.timestamp && asked.symbol == s.symbol
    requires o.status != Rejected ==> asked.quantity > 0.0 && asked.quantity * bar.open <= s.risk.maxOrderValue
    ensures Within(s, bar, o) && KeyOf(o) == KeyOf(asked)
  {
  }

  lemma AppendStaysDistinct(st: State, t: State, o: Order)
    requires NoDuplicates(st) && t.orders == st.orders + [o]
    requires t.seen == if o.status == Rejected then st.seen else st.seen + {KeyOf(o)}
    requires o.status != Rejected ==> KeyOf(o) !in st.seen
    ensures NoDuplicates(t)
  {
  }

  lemma SameDistinct(st: State, t: State)
    requires NoDuplicates(st) && t.orders == st.orders && t.seen == st.seen
    ensures NoDuplicates(t)
  {
  }

  lemma AcceptedIsWithin(o: Order, b: Book, price: real, seen: set<OrderKey>, c: RiskConfig, tolerance: real)
    requires forall reason: Reason :: !Breaks(reason, o, b, price, seen, c, tolerance)
    ensures o.quantity > 0.0 && o.quantity * price <= c.maxOrderValue && KeyOf(o) !in seen
  {
    assert !Breaks(InvalidQuantity, o, b, price, seen, c, tolerance);
    assert !Breaks(OrderValueExceeded, o, b, price, seen, c, tolerance);
    assert !Breaks(DuplicateOrder, o, b, price, seen, c, tolerance);
    assert price * o.quantity == o.quantity * price;
  }

  /**
    Over every session: each order is recorded with the bar that made it, and was rejected or held to the order limits at
    that bar's open; no two accepted orders are the same request; and the history is the closes, the last one marked.
   */
  lemma {:induction false} AcceptedOrdersAreWithin(s: Setup, bars: seq<Bar>)
    requires s.Valid()
    ensures Orderly(s, bars, Run(s, bars)) && Run(s, bars).history == ClosesOf(bars)
    ensures bars != [] ==>
              var book := Run(s, bars).book;
              s.symbol in book.last && book.last[s.symbol] == bars[|bars| - 1].close
  {
    hide Trade, DrainDue, Ledger, Aside;
    RunKeepsLedger(s, bars);
    if bars != [] {
      var front, bar := bars[..|bars| - 1], bars[|bars| - 1];
      AcceptedOrdersAreWithin(s, front);
      RunKeepsLedger(s, front);
      var st, event := Run(s, front), EventOf(s, bar, |bars|);
      MoreBarsStaysOrderly(s, front, bars, st);
      DrainStaysOrderly(s, bars, st, event);
      TradeStaysOrderly(s, bars, DrainDue(s, st, event), bar);
      OrderlyIgnoresClose(s, bars, Trade(s, DrainDue(s, st, event), event), event);
      assert ClosesOf(bars) == ClosesOf(front) + [bar.close];
      hide Orderly;
    }
  }

  lemma MoreBarsStaysOrderly(s: Setup, front: seq<Bar>, bars: seq<Bar>, st: State)
    requires front <= bars && Orderly(s, front, st)
    ensures Orderly(s, bars, st)
  {
  }

  lemma OrderlyIgnoresClose(s: Setup, bars: seq<Bar>, st: State, event: MarketEvent)
    requires Orderly(s, bars, st)
    ensures Orderly(s, bars, AfterClose(st, event))
  {
  }
}
