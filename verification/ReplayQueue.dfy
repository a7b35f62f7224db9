/** For which bar each order of a session waits. */
module ReplayQueue {
  import opened Common
  import opened Execution
  import opened Portfolio
  import opened Decisions
  import opened Replay
  import opened ReplayLiquidity
  import opened ReplayLedger
  import opened ReplayOrders
  import opened ReplayCausality

  /** What waits after a bar waits for the next one, or is untouched and waits for its own bar plus the latency. */
  ghost predicate OnTime(s: Setup, st: State, sequence: int) {
    && Wired(st)
    && forall i :: 0 <= i < |st.pending| ==>
         var p := st.pending[i];
         && p.due > sequence
         && (p.due == sequence + 1
             || (p.order.filled == 0.0 && p.due == st.submitted[p.order.id] + s.execution.latency))
  }

  lemma SettleIsOnTime(s: Setup, st: State, x: Execution, event: MarketEvent)
    requires OnTime(s, st, event.sequence) && x.order.id < |st.orders| && x.order.filled >= 0.0
    ensures var t := Settle(st, x, event, s.execution.tolerance);
            OnTime(s, t, event.sequence) && t.submitted == st.submitted
  {
    hide ApplyFill;
  }

  lemma DrainOneIsOnTime(s: Setup, d: Drain, order: Order, event: MarketEvent)
    requires OnTime(s, d.state, event.sequence) && order.filled >= 0.0 && order.id < |d.state.orders|
    ensures var t := DrainOne(s, d, order, event).state;
            OnTime(s, t, event.sequence) && t.submitted == d.state.submitted
  {
    DrainOneCases(s, d, order, event);
    hide BrokerExecute, Settle, DrainOne, Available;
    if Turn(s, d, order, event).Ok? {
      SettleIsOnTime(s, d.state, Turn(s, d, order, event).value, event);
    }
  }

  lemma {:induction false} DrainAllIsOnTime(s: Setup, d: Drain, due: seq<Pending>, event: MarketEvent)
    requires OnTime(s, d.state, event.sequence) && Queued(due, |d.state.orders|)
    ensures var t := DrainAll(s, d, due, event).state;
            OnTime(s, t, event.sequence) && t.submitted == d.state.submitted
  {
    hide DrainOne;
    if due != [] {
      DrainAllIsOnTime(s, d, due[..|due| - 1], event);
      DrainOneIsOnTime(s, DrainAll(s, d, due[..|due| - 1], event), due[|due| - 1].order, event);
    }
  }

  /** What is not due yet was waiting for its own bar. */
  lemma {:induction false} WaitingIsLater(s: Setup, st: State, queue: seq<Pending>, sequence: nat)
    requires OnTime(s, st.(pending := queue), sequence - 1)
    ensures OnTime(s, st.(pending := Waiting(queue, sequence)), sequence)
  {
    if queue != [] {
      WaitingIsLater(s, st, queue[..|queue| - 1], sequence);
    }
  }

  lemma TradeIsOnTime(s: Setup, st: State, event: MarketEvent)
    requires s.Valid() && OnTime(s, st, event.sequence)
    ensures OnTime(s, Trade(s, st, event), event.sequence)
  {
    hide OnMarket, Check, BrokerExecute, ApplyFill;
    var marked := st.(book := MarkPrice(st.book, event.symbol, event.open));
    var signal := OnMarket(s.windows, marked.history, event, marked.book, s.execution.tolerance);
    var u := marked.(signals := marked.signals + [signal]);
    if signal.direction != Hold {
      var order := Check(NewOrder(u, s, signal), u.book, event.open, u.seen, s.risk, s.execution.tolerance);
      CheckKeepsId(NewOrder(u, s, signal), u.book, event.open, u.seen, s.risk, s.execution.tolerance);
      if order.status != Rejected && s.execution.latency == 0 {
        var r := BrokerExecute(order, event, s.execution, s.risk.commissionBps);
        if r.Ok? {
          var v := u.(orders := u.orders + [order], submitted := u.submitted + [event.sequence],
                      seen := u.seen + {KeyOf(order)}, requested := u.requested + order.quantity);
          SettleIsOnTime(s, v, r.value, event);
        }
      }
      hide Settle;
    }
  }

  /**
    After every bar of every session: an order that has waited its turn waits for the very next bar, and one that has not
    waits for exactly the bar its submission and the latency give.
   */
  lemma {:induction false} QueueIsOnTime(s: Setup, bars: seq<Bar>)
    requires s.Valid()
    ensures OnTime(s, Run(s, bars), |bars|)
  {
    hide DrainAll, Trade, Ledger;
    RunKeepsLedger(s, bars);
    if bars != [] {
      var front, bar := bars[..|bars| - 1], bars[|bars| - 1];
      QueueIsOnTime(s, front);
      RunKeepsLedger(s, front);
      var st, event := Run(s, front), EventOf(s, bar, |bars|);
      SplittingKeepsQueued(st.pending, event.sequence, |st.orders|);
      WaitingIsLater(s, st, st.pending, event.sequence);
      DrainAllIsOnTime(s, Drain(st.(pending := Waiting(st.pending, event.sequence)), None),
                       Due(st.pending, event.sequence), event);
      TradeIsOnTime(s, DrainDue(s, st, event), event);
      CloseIsOnTime(s, Trade(s, DrainDue(s, st, event), event), event);
    }
  }

  lemma CloseIsOnTime(s: Setup, st: State, event: MarketEvent)
    requires OnTime(s, st, event.sequence)
    ensures OnTime(s, AfterClose(st, event), event.sequence)
  {
  }
}
