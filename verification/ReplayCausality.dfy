/** No lookahead: a bar's trades do not see its close, and no fill comes before its order's latency has passed. */
module ReplayCausality {
  import opened Common
  import opened Execution
  import opened Portfolio
  import opened Decisions
  import opened Replay
  import opened ReplayLiquidity

  /** Two bars alike in everything known when the bar opens. */
  predicate SameOpening(a: Bar, b: Bar) { a.timestamp == b.timestamp && a.open == b.open && a.volume == b.volume }

  predicate SameEvent(a: MarketEvent, b: MarketEvent) { a == b.(high := a.high, low := a.low, close := a.close) }

  lemma BrokerIgnoresClose(order: Order, a: MarketEvent, b: MarketEvent, c: Config, commissionBps: real)
    requires order.filled >= 0.0 && SameEvent(a, b)
    ensures BrokerExecute(order, a, c, commissionBps) == BrokerExecute(order, b, c, commissionBps)
  {
    assert MarketStateOf(a, c) == MarketStateOf(b, c);
    hide MarketStateOf, ExecuteOrder;
  }

  lemma SameAvailable(s: Setup, d: Drain, a: MarketEvent, b: MarketEvent)
    requires SameEvent(a, b)
    ensures Available(s, d, a) == Available(s, d, b)
  {
  }

  lemma DrainOneIgnoresClose(s: Setup, d: Drain, order: Order, a: MarketEvent, b: MarketEvent)
    requires Wired(d.state) && order.filled >= 0.0 && order.id < |d.state.orders| && SameEvent(a, b)
    ensures DrainOne(s, d, order, a) == DrainOne(s, d, order, b)
  {
    hide BrokerExecute, ApplyFill, Available;
    SameAvailable(s, d, a, b);
    BrokerIgnoresClose(order, a, b, s.execution, s.risk.commissionBps);
    if a.volume != 0 {
      BrokerIgnoresClose(order, a, b, OwnConfig(s.execution, Available(s, d, a), a.volume), s.risk.commissionBps);
    }
  }

  lemma {:induction false} DrainAllIgnoresClose(s: Setup, d: Drain, due: seq<Pending>, a: MarketEvent, b: MarketEvent)
    requires Wired(d.state) && Queued(due, |d.state.orders|) && SameEvent(a, b)
    ensures DrainAll(s, d, due, a) == DrainAll(s, d, due, b)
  {
    hide DrainOne;
    if due != [] {
      DrainAllIgnoresClose(s, d, due[..|due| - 1], a, b);
      DrainOneIgnoresClose(s, DrainAll(s, d, due[..|due| - 1], a), due[|due| - 1].order, a, b);
    }
  }

  lemma TradeIgnoresClose(s: Setup, st: State, a: MarketEvent, b: MarketEvent)
    requires s.Valid() && Wired(st) && SameEvent(a, b)
    ensures Trade(s, st, a) == Trade(s, st, b)
  {
    hide BrokerExecute, ApplyFill, Equity, Rejection, TailMean;
    var marked := st.(book := MarkPrice(st.book, a.symbol, a.open));
    var signal := OnMarket(s.windows, marked.history, a, marked.book, s.execution.tolerance);
    assert signal == OnMarket(s.windows, marked.history, b, marked.book, s.execution.tolerance);
    var order := Check(NewOrder(marked, s, signal), marked.book, a.open, marked.seen, s.risk, s.execution.tolerance);
    BrokerIgnoresClose(order, a, b, s.execution, s.risk.commissionBps);
  }

  lemma BeforeCloseIgnoresClose(s: Setup, st: State, a: MarketEvent, b: MarketEvent)
    requires s.Valid() && Wired(st) && SameEvent(a, b)
    ensures BeforeClose(s, st, a) == BeforeClose(s, st, b)
  {
    hide DrainAll, Trade;
    SplittingKeepsQueued(st.pending, a.sequence, |st.orders|);
    var start := Drain(st.(pending := Waiting(st.pending, a.sequence)), None);
    DrainAllIgnoresClose(s, start, Due(st.pending, a.sequence), a, b);
    TradeIgnoresClose(s, DrainDue(s, st, a), a, b);
  }

  /** Two states that differ only in what the last close wrote: the mark price and the last history entry. */
  predicate SameTrades(a: State, b: State) {
    a == b.(book := b.book.(last := a.book.last), history := a.history)
  }

  /**
    Bars that agree before bar k, and on bar k's open, volume and timestamp, give the same signals, orders, fills,
    queue, cash and positions through bar k.
   */
  lemma {:induction false} Causality(s: Setup, bars: seq<Bar>, others: seq<Bar>, k: nat)
    requires s.Valid() && k < |bars| && k < |others|
    requires bars[..k] == others[..k] && SameOpening(bars[k], others[k])
    ensures SameTrades(Run(s, bars[..k + 1]), Run(s, others[..k + 1]))
  {
    assert bars[..k + 1][..k] == bars[..k] && others[..k + 1][..k] == others[..k];
    var st := Run(s, bars[..k]);
    BeforeCloseIgnoresClose(s, st, EventOf(s, bars[k], k + 1), EventOf(s, others[k], k + 1));
    hide BeforeClose;
  }

  // ----- The trace only grows, and only with the current bar's number -----

  /** `t` extends `st` with fills and signals of one bar. */
  ghost predicate Extends(st: State, t: State, bar: nat) {
    && st.fills <= t.fills && st.signals <= t.signals && st.submitted <= t.submitted
    && |st.orders| <= |t.orders|
    && (forall k :: |st.fills| <= k < |t.fills| ==> t.fills[k].bar == bar)
    && (forall k :: |st.submitted| <= k < |t.submitted| ==> t.submitted[k] == bar)
  }

  lemma DrainOneExtends(s: Setup, d: Drain, order: Order, event: MarketEvent)
    requires Wired(d.state) && order.filled >= 0.0 && order.id < |d.state.orders|
    ensures Extends(d.state, DrainOne(s, d, order, event).state, event.sequence)
  {
    hide BrokerExecute, ApplyFill;
  }

  lemma {:induction false} DrainAllExtends(s: Setup, d: Drain, due: seq<Pending>, event: MarketEvent)
    requires Wired(d.state) && Queued(due, |d.state.orders|)
    ensures Extends(d.state, DrainAll(s, d, due, event).state, event.sequence)
  {
    hide DrainOne;
    if due != [] {
      DrainAllExtends(s, d, due[..|due| - 1], event);
      DrainOneExtends(s, DrainAll(s, d, due[..|due| - 1], event), due[|due| - 1].order, event);
    }
  }

  lemma TradeExtends(s: Setup, st: State, event: MarketEvent)
    requires s.Valid() && Wired(st)
    ensures Extends(st, Trade(s, st, event), event.sequence)
  {
    hide BrokerExecute, ApplyFill, OnMarket, Check;
  }

  lemma StepExtends(s: Setup, st: State, bar: Bar, sequence: nat)
    requires s.Valid() && Wired(st)
    ensures Extends(st, Step(s, st, bar, sequence), sequence)
  {
    hide DrainAll, Trade;
    var event := EventOf(s, bar, sequence);
    SplittingKeepsQueued(st.pending, sequence, |st.orders|);
    DrainAllExtends(s, Drain(st.(pending := Waiting(st.pending, sequence)), None), Due(st.pending, sequence), event);
    TradeExtends(s, DrainDue(s, st, event), event);
  }

  /** Bars after the first n only append to the trace, and every fill they add carries a later bar number. */
  lemma {:induction false} TracePrefix(s: Setup, bars: seq<Bar>, n: nat)
    requires s.Valid() && n <= |bars|
    ensures var early, late := Run(s, bars[..n]), Run(s, bars);
            && early.fills <= late.fills && early.signals <= late.signals && early.submitted <= late.submitted
            && (forall k :: |early.fills| <= k < |late.fills| ==> late.fills[k].bar > n)
    decreases |bars|
  {
    if n == |bars| {
      assert bars[..n] == bars;
    } else {
      var front := bars[..|bars| - 1];
      assert front[..n] == bars[..n];
      TracePrefix(s, front, n);
      StepExtends(s, Run(s, front), bars[|bars| - 1], |bars|);
      hide Step;
    }
  }

  // ----- Latency -----

  /** Nothing queued or filled is earlier than its order's bar plus the latency. */
  ghost predicate Timely(s: Setup, st: State) {
    && Wired(st)
    && (forall i :: 0 <= i < |st.pending| ==>
          st.pending[i].due >= st.submitted[st.pending[i].order.id] + s.execution.latency)
    && (forall k :: 0 <= k < |st.fills| ==>
          && st.fills[k].fill.orderId < |st.submitted|
          && st.fills[k].bar >= st.submitted[st.fills[k].fill.orderId] + s.execution.latency)
  }

  lemma SettleIsTimely(s: Setup, st: State, order: Order, x: Execution, event: MarketEvent)
    requires Timely(s, st) && order.id < |st.orders| && Advances(order, x, s.execution.tolerance) && x.order.filled >= 0.0
    requires event.sequence >= st.submitted[order.id] + s.execution.latency
    ensures Timely(s, Settle(st, x, event, s.execution.tolerance))
  {
    hide ApplyFill;
  }

  lemma DrainOneIsTimely(s: Setup, d: Drain, order: Order, event: MarketEvent)
    requires Timely(s, d.state) && order.filled >= 0.0 && order.id < |d.state.orders|
    requires event.sequence >= d.state.submitted[order.id] + s.execution.latency
    ensures Timely(s, DrainOne(s, d, order, event).state)
    ensures DrainOne(s, d, order, event).state.submitted == d.state.submitted
  {
    BrokerAdvances(order, event, TurnConfig(s, d, event), s.risk.commissionBps);
    DrainOneCases(s, d, order, event);
    hide BrokerExecute, Advances, Settle, DrainOne, Available;
    if Turn(s, d, order, event).Ok? {
      SettleIsTimely(s, d.state, order, Turn(s, d, order, event).value, event);
    }
  }

  /** The four things one turn can do to the state. */
  lemma DrainOneCases(s: Setup, d: Drain, order: Order, event: MarketEvent)
    requires Wired(d.state) && order.filled >= 0.0 && order.id < |d.state.orders|
    ensures var t, r := DrainOne(s, d, order, event).state, Turn(s, d, order, event);
            || t == d.state || t == d.state.(failed := true) || t == Defer(d.state, order, event)
            || (r.Ok? && t == Settle(d.state, r.value, event, s.execution.tolerance))
    ensures DrainOne(s, d, order, event).state.submitted == d.state.submitted
  {
    hide BrokerExecute, ApplyFill, Available;
  }

  lemma {:induction false} DrainAllIsTimely(s: Setup, d: Drain, due: seq<Pending>, event: MarketEvent)
    requires Timely(s, d.state) && Queued(due, |d.state.orders|)
    requires forall i :: 0 <= i < |due| ==>
               event.sequence >= d.state.submitted[due[i].order.id] + s.execution.latency
    ensures var e := DrainAll(s, d, due, event); Timely(s, e.state) && e.state.submitted == d.state.submitted
  {
    hide DrainOne;
    if due != [] {
      DrainAllIsTimely(s, d, due[..|due| - 1], event);
      DrainOneIsTimely(s, DrainAll(s, d, due[..|due| - 1], event), due[|due| - 1].order, event);
    }
  }

  lemma DrainDueIsTimely(s: Setup, st: State, event: MarketEvent)
    requires Timely(s, st)
    ensures Timely(s, DrainDue(s, st, event))
  {
    hide DrainAll;
    var due, waiting := Due(st.pending, event.sequence), Waiting(st.pending, event.sequence);
    SplittingKeepsQueued(st.pending, event.sequence, |st.orders|);
    SplittingKeepsDues(st.pending, event.sequence, st.submitted, s.execution.latency);
    DrainAllIsTimely(s, Drain(st.(pending := waiting), None), due, event);
  }

  predicate Late(queue: seq<Pending>, submitted: seq<nat>, latency: int) {
    forall i :: 0 <= i < |queue| ==>
      queue[i].order.id < |submitted| && queue[i].due >= submitted[queue[i].order.id] + latency
  }

  lemma {:induction false} SplittingKeepsDues(queue: seq<Pending>, sequence: nat, submitted: seq<nat>, latency: int)
    requires Late(queue, submitted, latency)
    ensures Late(Waiting(queue, sequence), submitted, latency) && Late(Due(queue, sequence), submitted, latency)
    ensures forall i :: 0 <= i < |Due(queue, sequence)| ==> Due(queue, sequence)[i].due <= sequence
  {
    if queue != [] {
      SplittingKeepsDues(queue[..|queue| - 1], sequence, submitted, latency);
    }
  }

  lemma TradeIsTimely(s: Setup, st: State, event: MarketEvent)
    requires s.Valid() && Timely(s, st)
    ensures Timely(s, Trade(s, st, event))
  {
    hide OnMarket, Check, Timely, Submit;
    var marked := st.(book := MarkPrice(st.book, event.symbol, event.open));
    var signal := OnMarket(s.windows, marked.history, event, marked.book, s.execution.tolerance);
    var u := marked.(signals := marked.signals + [signal]);
    TimelyIgnoresBook(s, st, u);
    if signal.direction != Hold {
      var order := Check(NewOrder(u, s, signal), u.book, event.open, u.seen, s.risk, s.execution.tolerance);
      CheckKeepsId(NewOrder(u, s, signal), u.book, event.open, u.seen, s.risk, s.execution.tolerance);
      SubmitIsTimely(s, u, order, event, u.seen + {KeyOf(order)});
    }
  }

  lemma TimelyIgnoresBook(s: Setup, st: State, t: State)
    requires Timely(s, st) && t == st.(book := t.book, signals := t.signals)
    ensures Timely(s, t)
  {
  }

  lemma SubmitIsTimely(s: Setup, u: State, order: Order, event: MarketEvent, seen: set<OrderKey>)
    requires s.Valid() && Timely(s, u) && order.id == |u.orders| && order.filled == 0.0
    ensures var v := u.(orders := u.orders + [order], submitted := u.submitted + [event.sequence]);
            Timely(s, v) && Timely(s, Submit(s, v.(seen := seen), order, event))
  {
    hide BrokerExecute, Advances, Settle;
    var v := u.(orders := u.orders + [order], submitted := u.submitted + [event.sequence]);
    assert Timely(s, v);
    BrokerAdvances(order, event, s.execution, s.risk.commissionBps);
    var r := BrokerExecute(order, event, s.execution, s.risk.commissionBps);
    if s.execution.latency == 0 && r.Ok? {
      SettleIsTimely(s, v.(seen := seen, requested := v.requested + order.quantity), order, r.value, event);
    }
  }

  lemma CheckKeepsId(o: Order, b: Book, price: real, seen: set<OrderKey>, c: RiskConfig, tolerance: real)
    ensures var r := Check(o, b, price, seen, c, tolerance); r.id == o.id && r.filled == 0.0
  {
  }

  /** In every run, no fill happens before its order's submission bar plus the configured latency. */
  lemma {:induction false} LatencyRespected(s: Setup, bars: seq<Bar>)
    requires s.Valid()
    ensures var st := Run(s, bars);
            forall k :: 0 <= k < |st.fills| ==>
              && st.fills[k].fill.orderId < |st.submitted|
              && st.fills[k].bar >= st.submitted[st.fills[k].fill.orderId] + s.execution.latency
    ensures Timely(s, Run(s, bars))
  {
    if bars != [] {
      var st, event := Run(s, bars[..|bars| - 1]), EventOf(s, bars[|bars| - 1], |bars|);
      LatencyRespected(s, bars[..|bars| - 1]);
      hide DrainDue, Trade;
      DrainDueIsTimely(s, st, event);
      TradeIsTimely(s, DrainDue(s, st, event), event);
    }
  }
}
