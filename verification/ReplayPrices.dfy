/** What the fills of a whole session are charged. */
module ReplayPrices {
  import opened Common
  import opened Execution
  import opened ExecutionPrices
  import opened Portfolio
  import opened Decisions
  import opened Replay
  import opened ReplayLiquidity
  import opened ReplayCausality

  /** Charged at the bar's open, with the synthetic spread around it, by the session's own model and rates. */
  predicate ChargedOn(s: Setup, bar: Bar, f: Fill) {
    Charges(f, Synthetic(bar.open, s.execution), bar.volume, s.execution, s.risk.commissionBps)
    && f.timestamp == bar.timestamp
  }

  /** Nothing is taken from the fill table, and what a bar adds to it is charged on that bar. */
  ghost predicate AddsCharged(s: Setup, bar: Bar, sequence: nat, before: seq<FillRow>, after: seq<FillRow>) {
    && before <= after
    && forall k :: |before| <= k < |after| ==> after[k].bar == sequence && ChargedOn(s, bar, after[k].fill)
  }

  lemma SettleAdds(s: Setup, st: State, x: Execution, bar: Bar, sequence: nat)
    requires Wired(st) && x.order.id < |st.orders| && x.order.filled >= 0.0
    requires |x.fills| <= 1 && (x.fills != [] ==> ChargedOn(s, bar, x.fills[0]))
    ensures AddsCharged(s, bar, sequence, st.fills,
                        Settle(st, x, EventOf(s, bar, sequence), s.execution.tolerance).fills)
  {
    hide ApplyFill, ChargedOn;
  }

  /** One order's execution: its own participation rate does not change the price. */
  lemma TurnIsCharged(s: Setup, order: Order, bar: Bar, sequence: nat, c: Config)
    requires order.filled >= 0.0 && c == s.execution.(maxParticipation := c.maxParticipation)
    ensures var r := BrokerExecute(order, EventOf(s, bar, sequence), c, s.risk.commissionBps);
            r.Ok? && r.value.fills != [] ==> ChargedOn(s, bar, r.value.fills[0])
  {
    hide BrokerExecute;
    var event := EventOf(s, bar, sequence);
    BrokerCharges(order, event, c, s.risk.commissionBps);
    assert forall bid, ask :: !Usable(event, c, bid, ask);
  }

  lemma DrainOneAdds(s: Setup, d: Drain, order: Order, bar: Bar, sequence: nat)
    requires Wired(d.state) && order.filled >= 0.0 && order.id < |d.state.orders|
    ensures AddsCharged(s, bar, sequence, d.state.fills, DrainOne(s, d, order, EventOf(s, bar, sequence)).state.fills)
  {
    var event := EventOf(s, bar, sequence);
    BrokerAdvances(order, event, TurnConfig(s, d, event), s.risk.commissionBps);
    DrainOneCases(s, d, order, event);
    TurnIsCharged(s, order, bar, sequence, TurnConfig(s, d, event));
    hide BrokerExecute, Settle, DrainOne, Available, ChargedOn;
    if Turn(s, d, order, event).Ok? {
      SettleAdds(s, d.state, Turn(s, d, order, event).value, bar, sequence);
    }
  }

  lemma {:induction false} DrainAllAdds(s: Setup, d: Drain, due: seq<Pending>, bar: Bar, sequence: nat)
    requires Wired(d.state) && Queued(due, |d.state.orders|)
    ensures AddsCharged(s, bar, sequence, d.state.fills, DrainAll(s, d, due, EventOf(s, bar, sequence)).state.fills)
  {
    hide DrainOne, ChargedOn;
    if due != [] {
      var before := DrainAll(s, d, due[..|due| - 1], EventOf(s, bar, sequence));
      DrainAllAdds(s, d, due[..|due| - 1], bar, sequence);
      DrainOneAdds(s, before, due[|due| - 1].order, bar, sequence);
    }
  }

  lemma TradeAdds(s: Setup, st: State, bar: Bar, sequence: nat)
    requires s.Valid() && Wired(st)
    ensures AddsCharged(s, bar, sequence, st.fills, Trade(s, st, EventOf(s, bar, sequence)).fills)
  {
    hide OnMarket, Check, BrokerExecute, Advances, ChargedOn;
    var event := EventOf(s, bar, sequence);
    var marked := st.(book := MarkPrice(st.book, event.symbol, event.open));
    var signal := OnMarket(s.windows, marked.history, event, marked.book, s.execution.tolerance);
    var u := marked.(signals := marked.signals + [signal]);
    if signal.direction != Hold {
      var order := Check(NewOrder(u, s, signal), u.book, event.open, u.seen, s.risk, s.execution.tolerance);
      CheckKeepsId(NewOrder(u, s, signal), u.book, event.open, u.seen, s.risk, s.execution.tolerance);
      BrokerAdvances(order, event, s.execution, s.risk.commissionBps);
      AtMostOneFill(order, event, s.execution, s.risk.commissionBps);
      TurnIsCharged(s, order, bar, sequence, s.execution);
      var r := BrokerExecute(order, event, s.execution, s.risk.commissionBps);
      if order.status != Rejected && s.execution.latency == 0 && r.Ok? {
        var v := u.(orders := u.orders + [order], submitted := u.submitted + [event.sequence],
                    seen := u.seen + {KeyOf(order)}, requested := u.requested + order.quantity);
        SettleAdds(s, v, r.value, bar, sequence);
      }
      hide Settle;
    }
  }

  lemma AtMostOneFill(order: Order, event: MarketEvent, c: Config, commissionBps: real)
    requires order.filled >= 0.0
    ensures var r := BrokerExecute(order, event, c, commissionBps); r.Ok? ==> |r.value.fills| <= 1
  {
    BrokerAdvances(order, event, c, commissionBps);
    hide BrokerExecute;
  }

  /** Every fill of every session is charged on the bar it is recorded with. */
  lemma {:induction false} FillsAreCharged(s: Setup, bars: seq<Bar>)
    requires s.Valid()
    ensures forall k :: 0 <= k < |Run(s, bars).fills| ==>
              var row := Run(s, bars).fills[k]; 1 <= row.bar <= |bars| && ChargedOn(s, bars[row.bar - 1], row.fill)
  {
    hide DrainDue, DrainAll, Trade, ChargedOn;
    if bars != [] {
      var n := |bars|;
      FillsAreCharged(s, bars[..n - 1]);
      BarAdds(s, Run(s, bars[..n - 1]), bars[n - 1], n);
    }
  }

  lemma BarAdds(s: Setup, st: State, bar: Bar, sequence: nat)
    requires s.Valid() && Wired(st)
    ensures AddsCharged(s, bar, sequence, st.fills, Step(s, st, bar, sequence).fills)
  {
    hide DrainAll, Trade, ChargedOn;
    SplittingKeepsQueued(st.pending, sequence, |st.orders|);
    DrainAllAdds(s, Drain(st.(pending := Waiting(st.pending, sequence)), None), Due(st.pending, sequence), bar, sequence);
    TradeAdds(s, DrainDue(s, st, EventOf(s, bar, sequence)), bar, sequence);
  }
}
