/** Cash under IDEAL execution and any latency: when a purchase that waits can still be paid. */
module ReplayCash {
  import opened Common
  import opened Execution
  import opened Portfolio
  import opened Decisions
  import opened Replay
  import opened ReplayLiquidity
  import opened ReplayAccounting
  import opened ReplayExamples

  // ----- The queue of an IDEAL session -----

  /** Between bars: whole orders wait, each for a later bar of its own, none for one after the latest. */
  ghost predicate Lined(st: State, sequence: nat, latest: int) {
    && Wired(st) && !st.failed
    && (forall i :: 0 <= i < |st.pending| ==>
          && Wanting(st.pending[i].order) && st.pending[i].order.filled == 0.0
          && sequence < st.pending[i].due <= latest)
    && forall i, j :: 0 <= i < j < |st.pending| ==> st.pending[i].due < st.pending[j].due
  }

  /** The missing check: a purchase that is due on this bar costs no more than the cash there is. */
  ghost predicate CanPay(s: Setup, st: State, event: MarketEvent) {
    forall i :: 0 <= i < |st.pending| && st.pending[i].due <= event.sequence && st.pending[i].order.side == Buy ==>
      CashRequired(st.pending[i].order, event.open, s.risk) <= st.book.cash
  }

  lemma DueOrderFills(s: Setup, st: State, bar: Bar, sequence: nat, latest: int)
    requires s.Valid() && Capped(s) && bar.open >= 0.0 && sequence > 0
    requires Lined(st, sequence - 1, latest)
    requires st.pending != [] && st.pending[0].due == sequence
    ensures var d := DrainDue(s, st, EventOf(s, bar, sequence));
            var r := BrokerExecute(st.pending[0].order, EventOf(s, bar, sequence), s.execution, s.risk.commissionBps);
            && !d.failed && d.pending == st.pending[1..] && r.Ok? && |r.value.fills| == 1
            && d.book == ApplyFill(st.book, r.value.fills[0], s.execution.tolerance)
  {
    hide BrokerExecute, ApplyFill, DrainDue, Wanting;
    var event, order := EventOf(s, bar, sequence), st.pending[0].order;
    HeadDue(s, st, event);
    IdealFill(s, order, bar, sequence);
  }

  /** The drain of a bar fills at most the one order due on it, and overdraws exactly when that cannot be paid. */
  lemma DrainPays(s: Setup, st: State, bar: Bar, sequence: nat, latest: int)
    requires s.Valid() && Capped(s) && bar.open >= 0.0 && sequence > 0 && Lined(st, sequence - 1, latest)
    requires st.book.cash >= 0.0
    ensures var event := EventOf(s, bar, sequence);
            var d := DrainDue(s, st, event);
            && Lined(d, sequence, latest)
            && (d.book.cash >= 0.0 <==> CanPay(s, st, event))
  {
    hide BrokerExecute, ApplyFill, DrainDue, Wanting, CashRequired;
    var event := EventOf(s, bar, sequence);
    if st.pending != [] && st.pending[0].due == sequence {
      DueOrderFills(s, st, bar, sequence, latest);
      NeverOverdraws(s, st.book, st.pending[0].order, bar, sequence);
    } else {
      NothingDue(s, st, event);
    }
  }

  /** With latency, a bar's own decision moves no cash; an accepted order joins the end of the queue. */
  lemma TradeQueues(s: Setup, st: State, event: MarketEvent)
    requires s.Valid() && s.execution.latency > 0
    requires Lined(st, event.sequence, event.sequence + s.execution.latency - 1)
    ensures Lined(Trade(s, st, event), event.sequence, event.sequence + s.execution.latency)
    ensures Trade(s, st, event).book.cash == st.book.cash
  {
    hide OnMarket, Check, Wanting;
    var marked := st.(book := MarkPrice(st.book, event.symbol, event.open));
    var signal := OnMarket(s.windows, marked.history, event, marked.book, s.execution.tolerance);
    if signal.direction != Hold {
      CheckedFields(s, marked.(signals := marked.signals + [signal]), signal, event.open);
    }
  }

  lemma CloseKeepsLine(st: State, event: MarketEvent, sequence: nat, latest: int)
    requires Lined(st, sequence, latest)
    ensures Lined(AfterClose(st, event), sequence, latest) && AfterClose(st, event).book.cash == st.book.cash
  {
  }

  lemma StepPays(s: Setup, st: State, bar: Bar, sequence: nat)
    requires s.Valid() && Capped(s) && s.execution.latency > 0 && bar.open >= 0.0
    requires sequence > 0 && Lined(st, sequence - 1, sequence - 1 + s.execution.latency) && st.book.cash >= 0.0
    ensures var t := Step(s, st, bar, sequence);
            && Lined(t, sequence, sequence + s.execution.latency)
            && (t.book.cash >= 0.0 <==> CanPay(s, st, EventOf(s, bar, sequence)))
  {
    hide DrainDue, Trade, CanPay, Lined;
    var event, latest := EventOf(s, bar, sequence), sequence - 1 + s.execution.latency;
    LineHolds(st, sequence - 1, latest);
    var d := DrainDue(s, st, event);
    DrainPays(s, st, bar, sequence, latest);
    LineHolds(d, sequence, latest);
    TradeQueues(s, d, event);
    LineHolds(Trade(s, d, event), sequence, latest + 1);
    CloseKeepsLine(Trade(s, d, event), event, sequence, latest + 1);
  }

  lemma LineHolds(st: State, sequence: nat, latest: int)
    requires Lined(st, sequence, latest)
    ensures Wired(st) && !st.failed
  {
  }

  // ----- Whole sessions -----

  /** Cash was never negative after any of the first n bars. */
  ghost predicate Solvent(s: Setup, bars: seq<Bar>, n: nat)
    requires s.Valid() && n <= |bars|
  {
    forall i :: 0 <= i <= n ==> Run(s, bars[..i]).book.cash >= 0.0
  }

  /** Each of the first n bars could pay for the purchase that was due on it. */
  ghost predicate AllPaid(s: Setup, bars: seq<Bar>, n: nat)
    requires s.Valid() && n <= |bars|
  {
    forall i :: 0 <= i < n ==> CanPay(s, Run(s, bars[..i]), EventOf(s, bars[i], i + 1))
  }

  /**
    Under IDEAL execution with rates of at most 10,000 bps and any latency, cash is never negative after any bar exactly
    when every waiting purchase, checked again at the open that fills it, is within the cash. Without latency none waits.
   */
  lemma {:induction false} SolventIffPaid(s: Setup, bars: seq<Bar>, n: nat)
    requires s.Valid() && Capped(s) && n <= |bars| && forall i :: 0 <= i < |bars| ==> bars[i].open >= 0.0
    ensures Solvent(s, bars, n) <==> AllPaid(s, bars, n)
    ensures Solvent(s, bars, n) && s.execution.latency > 0 ==> Lined(Run(s, bars[..n]), n, n + s.execution.latency)
    ensures s.execution.latency == 0 ==> AllPaid(s, bars, n)
  {
    hide Solvent, AllPaid, Run, Step, CanPay, Lined;
    if n == 0 {
      StartsSolvent(s, bars);
    } else {
      SolventIffPaid(s, bars, n - 1);
      OneBarMore(s, bars, n);
      if s.execution.latency == 0 {
        NoneWaits(s, bars[..n - 1], EventOf(s, bars[n - 1], n));
        CashNeverNegative(s, bars[..n]);
      } else if Solvent(s, bars, n - 1) {
        EndsSolvent(s, bars, n - 1);
        StepPays(s, Run(s, bars[..n - 1]), bars[n - 1], n);
      }
    }
  }

  lemma OneBarMore(s: Setup, bars: seq<Bar>, n: nat)
    requires s.Valid() && 0 < n <= |bars|
    ensures Run(s, bars[..n]) == Step(s, Run(s, bars[..n - 1]), bars[n - 1], n)
    ensures Solvent(s, bars, n) <==> Solvent(s, bars, n - 1) && Run(s, bars[..n]).book.cash >= 0.0
    ensures AllPaid(s, bars, n) <==>
            AllPaid(s, bars, n - 1) && CanPay(s, Run(s, bars[..n - 1]), EventOf(s, bars[n - 1], n))
  {
    hide Step, CanPay;
    assert bars[..n][..n - 1] == bars[..n - 1];
    LastStep(s, bars[..n]);
    hide Run;
  }

  lemma EndsSolvent(s: Setup, bars: seq<Bar>, n: nat)
    requires s.Valid() && n <= |bars| && Solvent(s, bars, n)
    ensures Run(s, bars[..n]).book.cash >= 0.0
  {
    hide Run;
  }

  lemma StartsSolvent(s: Setup, bars: seq<Bar>)
    requires s.Valid()
    ensures Solvent(s, bars, 0) && AllPaid(s, bars, 0) && Lined(Run(s, bars[..0]), 0, s.execution.latency)
  {
    hide CanPay;
    assert bars[..0] == [];
  }

  lemma NoneWaits(s: Setup, bars: seq<Bar>, event: MarketEvent)
    requires s.Valid() && Immediate(s)
    ensures CanPay(s, Run(s, bars), event)
  {
    RunStaysClean(s, bars);
    hide Balanced, Run;
  }

  // ----- One bar of latency and a rising open -----

  /** Four bars at one, of which the last signals a purchase of all the cash buys; then a bar that opens at two. */
  function RisingBars(): seq<Bar> { BarsOf(Spike(4), 0) + [Bar(5, 2.0, 2.0, 1.0, 1.0, 100)] }

  ghost predicate AllIn(s: Setup) { IsExample(s, Ideal, 1, 1.0) }

  lemma OrdersHundred(s: Setup)
    requires AllIn(s)
    ensures Stands(SpikeRun(s, 4), 100.0, 0.0, Spike(4), [Ask(5, Buy, 100.0, 0.0)], 5)
  {
    hide DrainDue, Trade, Step, Waits, Rising;
    var st, bar := SpikeRun(s, 3), BarWith(4, 1.0, 100);
    var event := EventOf(s, bar, 4);
    Watched(s, Spike(3), 0);
    SpikeRises(3);
    NothingDue(s, st, event);
    SpikeStep(s, 3);
    BuyQueued(s, st, event);
    StandsAfterClose(s, st, bar, 4, 100.0, 0.0, Spike(3), [Ask(5, Buy, 100.0, 0.0)]);
  }

  lemma RisingIsLegal()
    ensures LegalBars(RisingBars())
  {
    BarsAreLegal(Spike(4), 0);
  }

  /**
    A legal session under IDEAL with one bar of latency: the purchase was checked at an open of one, is filled at an
    open of two, and leaves cash at a hundred below zero.
   */
  lemma {:induction false} RisingOpenOverdraws(s: Setup)
    requires AllIn(s)
    ensures s.Legal() && LegalBars(RisingBars()) && Capped(s)
    ensures Run(s, RisingBars()).book.cash == -100.0
  {
    hide DrainDue, Trade, Step, Run, BrokerExecute, ApplyFill;
    ExamplesAreLegal(s, Ideal, 1, 1.0);
    RisingIsLegal();
    OrdersHundred(s);
    var st, bar := SpikeRun(s, 4), RisingBars()[4];
    var event := EventOf(s, bar, 5);
    assert RisingBars()[..4] == BarsOf(Spike(4), 0);
    assert Lined(st, 4, 5);
    DueOrderFills(s, st, bar, 5, 5);
    IdealCash(s, st.book, st.pending[0].order, bar, 5);
    DrainPays(s, st, bar, 5, 5);
    TradeQueues(s, DrainDue(s, st, event), event);
    Closes(s, st, bar, 5);
    LastStep(s, RisingBars());
  }

  lemma LastStep(s: Setup, bars: seq<Bar>)
    requires s.Valid() && bars != []
    ensures Run(s, bars) == Step(s, Run(s, bars[..|bars| - 1]), bars[|bars| - 1], |bars|)
  {
    hide Step;
  }
}
