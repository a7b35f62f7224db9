/** What one bar fills in all: the documented cap on a bar's aggregate quantity, and when the loop keeps it. */
module ReplayAggregate {
  import opened Common
  import opened Execution
  import opened Portfolio
  import opened Decisions
  import opened Replay
  import opened ReplayLiquidity
  import opened ReplayLedger
  import opened ReplayOrders

  lemma DueAreReady(s: Setup, st: State, sequence: nat, aside: seq<Pending>)
    requires s.Valid() && Ledger(s, st, st.pending + aside)
    ensures Ready(Due(st.pending, sequence))
  {
    hide Ledger;
    var due := Due(st.pending, sequence);
    forall i | 0 <= i < |due|
      ensures Wanting(due[i].order)
    {
      SplittingKeepsMembers(st.pending, sequence, due[i]);
      assert due[i] in st.pending + aside;
      OpenOrderWants(s, st, st.pending + aside, due[i]);
    }
  }

  /** The due orders of a bar are together filled exactly the smaller of the budget and what they still want. */
  lemma DrainFills(s: Setup, st: State, event: MarketEvent, aside: seq<Pending>)
    requires s.Valid() && s.execution.model == Microstructure && event.volume >= 0
    requires Wired(st) && !st.failed && Ledger(s, st, st.pending + aside)
    ensures DrainDue(s, st, event).filled - st.filled
            == MinReal(Budget(s, event), Wants(Due(st.pending, event.sequence)))
  {
    hide Ledger, DrainAll, Budget, Wants;
    SplittingKeepsQueued(st.pending, event.sequence, |st.orders|);
    DueAreReady(s, st, event.sequence, aside);
    DrainShares(s, Drain(st.(pending := Waiting(st.pending, event.sequence)), None), Due(st.pending, event.sequence), event);
  }

  /** Executed at once, an order receives the bar's whole participation again, whatever the due orders took. */
  lemma AtOnceFills(s: Setup, order: Order, event: MarketEvent)
    requires s.Valid() && s.execution.model == Microstructure && event.volume >= 0 && Wanting(order)
    ensures var r := BrokerExecute(order, event, s.execution, s.risk.commissionBps);
            && r.Ok? && |r.value.fills| <= 1
            && (if r.value.fills == [] then 0.0 else r.value.fills[0].quantity) == MinReal(order.Unfilled(), Budget(s, event))
            && (event.volume == 0 ==> r.value == Execution(order, []))
  {
    hide MarketStateOf, Price, Impact, Reference;
    StateVolume(event, s.execution);
    assert event.volume as real * s.execution.maxParticipation >= 0.0;
    if event.volume == 0 {
      assert event.volume as real * s.execution.maxParticipation == 0.0;
    }
  }

  lemma TradeFills(s: Setup, st: State, event: MarketEvent)
    requires s.Valid() && s.execution.model == Microstructure && event.volume >= 0 && Wired(st)
    ensures var o := SubmittedAt(s, st, event);
            Trade(s, st, event).filled - st.filled
            == if o.Some? && s.execution.latency == 0 then MinReal(o.value.quantity, Budget(s, event)) else 0.0
  {
    hide OnMarket, Check, BrokerExecute, Budget, ApplyFill, Wanting;
    var marked := st.(book := MarkPrice(st.book, event.symbol, event.open));
    var signal := OnMarket(s.windows, marked.history, event, marked.book, s.execution.tolerance);
    if signal.direction != Hold {
      var order := Check(NewOrder(st, s, signal), marked.book, event.open, st.seen, s.risk, s.execution.tolerance);
      SubmittedWants(s, st, signal, marked.book, event.open);
      if order.status != Rejected {
        AtOnceFills(s, order, event);
      }
    }
  }

  lemma SubmittedWants(s: Setup, st: State, signal: Signal, book: Book, price: real)
    ensures var o := Check(NewOrder(st, s, signal), book, price, st.seen, s.risk, s.execution.tolerance);
            && o.id == |st.orders| && o.filled == 0.0 && (o.status != Rejected ==> Wanting(o) && o.Unfilled() == o.quantity)
  {
    hide Held, Exposure, Equity;
  }

  /** What the last bar of a run filled. */
  ghost function FilledOn(s: Setup, bars: seq<Bar>): real
    requires s.Valid() && bars != []
  {
    Run(s, bars).filled - Run(s, bars[..|bars| - 1]).filled
  }

  /** What the due orders of the last bar still wanted. */
  ghost function DueOn(s: Setup, bars: seq<Bar>): real
    requires s.Valid() && bars != []
  {
    Wants(Due(Run(s, bars[..|bars| - 1]).pending, |bars|))
  }

  function Cap(s: Setup, bar: Bar): real { bar.volume as real * s.execution.maxParticipation }

  /** What a bar fills in MICROSTRUCTURE mode: the due orders' share of the cap, and again up to the cap at once. */
  lemma {:induction false} BarFills(s: Setup, bars: seq<Bar>)
    requires s.Valid() && s.execution.model == Microstructure
    requires bars != [] && bars[|bars| - 1].volume >= 0
    ensures var cap, o := Cap(s, bars[|bars| - 1]), SubmittedOn(s, bars);
            && cap >= 0.0 && DueOn(s, bars) >= 0.0 && (o.Some? ==> o.value.quantity > 0.0)
            && FilledOn(s, bars)
               == MinReal(cap, DueOn(s, bars))
                  + if o.Some? && s.execution.latency == 0 then MinReal(o.value.quantity, cap) else 0.0
  {
    hide Ledger, DrainDue, Trade, Wants, SubmittedAt, Aside;
    var front, event := bars[..|bars| - 1], EventOf(s, bars[|bars| - 1], |bars|);
    RunKeepsLedger(s, front);
    var a := Run(s, front);
    DueAreReady(s, a, |bars|, Aside(s, front));
    WantsPositive(Due(a.pending, |bars|));
    BudgetIsPositive(s, event);
    DrainFills(s, a, event, Aside(s, front));
    DrainDueKeepsLedger(s, a, event, Aside(s, front));
    TradeFills(s, DrainDue(s, a, event), event);
    SubmittedIsPositive(s, DrainDue(s, a, event), event);
  }

  /**
    The documented cap: no bar fills more than its volume times the participation rate, whatever the bars, when there
    is latency; without latency exactly when the due orders and the new one together want no more than the cap.
   */
  lemma {:induction false} CapIsKeptWhen(s: Setup, bars: seq<Bar>)
    requires s.Valid() && s.execution.model == Microstructure
    requires bars != [] && bars[|bars| - 1].volume >= 0
    ensures var cap, o := Cap(s, bars[|bars| - 1]), SubmittedOn(s, bars);
            && (s.execution.latency != 0 ==> FilledOn(s, bars) <= cap)
            && (FilledOn(s, bars) <= cap <==>
                  s.execution.latency != 0 || o == None || cap == 0.0 || DueOn(s, bars) + o.value.quantity <= cap
                  || DueOn(s, bars) == 0.0)
            && FilledOn(s, bars) <= 2.0 * cap
  {
    hide FilledOn, DueOn, SubmittedOn, Cap;
    BarFills(s, bars);
  }

  lemma BudgetIsPositive(s: Setup, event: MarketEvent)
    requires s.Valid() && event.volume >= 0
    ensures Budget(s, event) >= 0.0
  {
  }

  lemma SubmittedIsPositive(s: Setup, st: State, event: MarketEvent)
    requires s.Valid()
    ensures SubmittedAt(s, st, event).Some? ==> SubmittedAt(s, st, event).value.quantity > 0.0
  {
    hide OnMarket, Held, Exposure, Equity;
  }
}
