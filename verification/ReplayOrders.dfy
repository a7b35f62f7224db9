/**
  Order conservation: what was requested is filled, queued, within tolerance of filled, or set aside unfilled on a bar
  without volume; nothing is queued twice.
 */
module ReplayOrders {
  import opened Common
  import opened Execution
  import opened Portfolio
  import opened Decisions
  import opened Replay
  import opened ReplayLiquidity
  import opened ReplayLedger

  // ----- Whole runs -----

  /** The order the last bar of a session submits, if it submits one. */
  ghost function SubmittedOn(s: Setup, bars: seq<Bar>): Option<Order>
    requires s.Valid() && bars != []
  {
    var event := EventOf(s, bars[|bars| - 1], |bars|);
    SubmittedAt(s, DrainDue(s, Run(s, bars[..|bars| - 1]), event), event)
  }

  /** The orders a session has set aside: each accepted on a bar that could not fill it. */
  ghost function Aside(s: Setup, bars: seq<Bar>): seq<Pending>
    requires s.Valid()
  {
    if bars == [] then []
    else
      var event := EventOf(s, bars[|bars| - 1], |bars|);
      Aside(s, bars[..|bars| - 1]) + AsideAt(s, DrainDue(s, Run(s, bars[..|bars| - 1]), event), event)
  }

  lemma {:induction false} RunKeepsLedger(s: Setup, bars: seq<Bar>)
    requires s.Valid()
    ensures var st := Run(s, bars); !st.failed && Ledger(s, st, st.pending + Aside(s, bars))
  {
    if bars != [] {
      var front, event := bars[..|bars| - 1], EventOf(s, bars[|bars| - 1], |bars|);
      RunKeepsLedger(s, front);
      var st, aside := Run(s, front), Aside(s, front);
      hide Ledger, DrainDue, Trade, AsideAt;
      DrainDueKeepsLedger(s, st, event, aside);
      var drained := DrainDue(s, st, event);
      TradeKeepsLedger(s, drained, event, aside);
      LedgerIgnoresBook(s, Trade(s, drained, event), AfterClose(Trade(s, drained, event), event), Aside(s, bars));
    } else {
      QueueEmpty([]);
    }
  }

  lemma {:induction false} ShortfallBound(s: Setup, orders: seq<Order>, n: nat)
    requires s.Valid() && SoundTable(s, orders) && n <= |orders|
    ensures 0.0 <= Shortfall(orders[..n]) <= s.execution.tolerance * FilledCount(orders[..n]) as real
  {
    if n > 0 {
      assert orders[..n][..n - 1] == orders[..n - 1];
      ShortfallBound(s, orders, n - 1);
    }
  }

  // ----- The quantity that is set aside, read from the tables -----

  /** An order that was accepted and never executed, and does not wait either. */
  predicate Forgotten(o: Order, ids: multiset<nat>) { o.status == Submitted && ids[o.id] == 0 }

  /** The summed quantity of the orders left submitted and unqueued. */
  function ForgottenQuantity(orders: seq<Order>, ids: multiset<nat>): real
  {
    if orders == [] then 0.0
    else
      ForgottenQuantity(orders[..|orders| - 1], ids)
      + if Forgotten(orders[|orders| - 1], ids) then orders[|orders| - 1].quantity else 0.0
  }

  /** One queue entry fewer for a submitted order adds its quantity to what is forgotten. */
  lemma {:induction false} ForgetOne(orders: seq<Order>, ids: multiset<nat>, id: nat)
    requires (forall i :: 0 <= i < |orders| ==> orders[i].id == i) && ids[id] == 0
    ensures ForgottenQuantity(orders, ids + multiset{id})
            == ForgottenQuantity(orders, ids)
               - if id < |orders| && orders[id].status == Submitted then orders[id].quantity else 0.0
  {
    if orders != [] {
      ForgetOne(orders[..|orders| - 1], ids, id);
    }
  }

  lemma {:induction false} NothingForgotten(orders: seq<Order>, ids: multiset<nat>)
    requires forall i :: 0 <= i < |orders| ==> !Forgotten(orders[i], ids)
    ensures ForgottenQuantity(orders, ids) == 0.0
  {
    if orders != [] {
      NothingForgotten(orders[..|orders| - 1], ids);
    }
  }

  /** What the aside orders want is the quantity that the tables show as forgotten. */
  lemma {:induction false} AsideIsForgotten(orders: seq<Order>, queue: seq<Pending>, aside: seq<Pending>)
    requires forall i :: 0 <= i < |orders| ==> orders[i].id == i && (orders[i].status == Submitted ==> orders[i].filled == 0.0)
    requires forall p :: p in aside ==>
               p.order.id < |orders| && orders[p.order.id] == p.order && p.order.status == Submitted
    requires forall i :: 0 <= i < |orders| ==> Ids(queue + aside)[i] <= 1
    ensures ForgottenQuantity(orders, Ids(queue)) == ForgottenQuantity(orders, Ids(queue + aside)) + Unfilled(aside)
  {
    hide Ids, Unfilled, ForgottenQuantity;
    if aside == [] {
      assert queue + aside == queue;
      QueueEmpty(aside);
    } else {
      var n := |aside| - 1;
      var p, before := aside[n], queue + aside[..n];
      assert p in aside;
      assert queue + aside == before + [p] && aside == aside[..n] + [p];
      QueueAppend(before, p);
      QueueAppend(aside[..n], p);
      assert Ids(queue + aside) == Ids(before) + multiset{p.order.id};
      forall i | 0 <= i < |orders|
        ensures Ids(before)[i] <= 1 && (i == p.order.id ==> Ids(before)[i] == 0)
      {
        assert Ids(queue + aside)[i] <= 1;
      }
      AsideIsForgotten(orders, queue, aside[..n]);
      ForgetOne(orders, Ids(before), p.order.id);
    }
  }

  /** Every order set aside was submitted, and never touched again. */
  lemma {:induction false} AsideIsSubmitted(s: Setup, bars: seq<Bar>)
    requires s.Valid()
    ensures forall p :: p in Aside(s, bars) ==> p.order.status == Submitted && p.order.quantity > 0.0 && p.order.filled == 0.0
  {
    if bars != [] {
      AsideIsSubmitted(s, bars[..|bars| - 1]);
      var event := EventOf(s, bars[|bars| - 1], |bars|);
      SubmittedFields(s, DrainDue(s, Run(s, bars[..|bars| - 1]), event), event);
      hide DrainDue, SubmittedAt;
    }
  }

  lemma SubmittedFields(s: Setup, st: State, event: MarketEvent)
    requires s.Valid()
    ensures var o := SubmittedAt(s, st, event);
            o.Some? ==> o.value.status == Submitted && o.value.quantity > 0.0 && o.value.filled == 0.0
  {
    hide OnMarket, Held, Exposure, Equity;
  }

  /**
    For every session over any bars, under any model and latency: it never fails; what was requested is what was
    filled, plus what is queued, plus the quantity of orders left submitted and unqueued, plus at most the tolerance
    for each order declared filled; every fill but those that filled their order was counted as partial. Every order
    waits at most once, a partial one exactly once and a closed one not at all; none is overfilled, and its recorded
    price is the quantity-weighted mean of its own fills.
   */
  lemma {:induction false} OrderConservation(s: Setup, bars: seq<Bar>)
    requires s.Valid()
    ensures var st := Run(s, bars);
            && !st.failed
            && st.requested == Accepted(st.orders) && st.filled == TotalFilled(st.fills)
            && st.partials == |st.fills| - FilledCount(st.orders)
            && st.requested == st.filled + Unfilled(st.pending) + ForgottenQuantity(st.orders, Ids(st.pending))
                               + Shortfall(st.orders)
            && 0.0 <= Shortfall(st.orders) <= s.execution.tolerance * FilledCount(st.orders) as real
    ensures var st := Run(s, bars);
            forall i :: 0 <= i < |st.orders| ==>
              var o := st.orders[i];
              && Ids(st.pending)[i] <= (if o.Executable() then 1 else 0)
              && (o.status == PartiallyFilled ==> Ids(st.pending)[i] == 1)
              && (o.status != Rejected ==> 0.0 <= o.filled <= o.quantity)
              && FillQuantityOf(st.fills, i) == o.filled
              && FillValueOf(st.fills, i) == o.averagePrice * o.filled
  {
    hide Run, Shortfall, FilledCount, Unfilled, Ids, Accepted, FillQuantityOf, FillValueOf, TotalFilled, Aside,
         ForgottenQuantity;
    RunKeepsLedger(s, bars);
    var st, aside := Run(s, bars), Aside(s, bars);
    ShortfallBound(s, st.orders, |st.orders|);
    assert st.orders[..|st.orders|] == st.orders;
    QueueConcat(st.pending, aside);
    AsideIsSubmitted(s, bars);
    AsideRows(s, st, aside);
    AsideIsForgotten(st.orders, st.pending, aside);
    NothingForgotten(st.orders, Ids(st.pending + aside));
  }

  lemma AsideRows(s: Setup, st: State, aside: seq<Pending>)
    requires Ledger(s, st, st.pending + aside) && forall p :: p in aside ==> p.order.status == Submitted
    ensures forall p :: p in aside ==> p.order.id < |st.orders| && st.orders[p.order.id] == p.order
    ensures forall i :: 0 <= i < |st.orders| && st.orders[i].status == PartiallyFilled ==> Ids(aside)[i] == 0
  {
    hide Recorded, Accepted, Shortfall, Ids, Unfilled;
    forall p | p in aside
      ensures p.order.id < |st.orders| && st.orders[p.order.id] == p.order
    {
      assert p in st.pending + aside;
    }
    forall i: nat | i < |st.orders| && st.orders[i].status == PartiallyFilled
      ensures Ids(aside)[i] == 0
    {
      NotAmong(aside, i);
    }
  }

  lemma {:induction false} NotAmong(queue: seq<Pending>, id: nat)
    requires forall p :: p in queue ==> p.order.id != id
    ensures Ids(queue)[id] == 0
  {
    if queue != [] {
      NotAmong(queue[..|queue| - 1], id);
    }
  }

  /** No bar of the session accepted an order that it could not fill. */
  ghost predicate AllCouldFill(s: Setup, bars: seq<Bar>)
    requires s.Valid()
  {
    forall n :: 0 <= n < |bars| && SubmittedOn(s, bars[..n + 1]).Some? ==> CanFill(s, bars[n].volume)
  }

  lemma {:induction false} AsideIffUnfillable(s: Setup, bars: seq<Bar>)
    requires s.Valid()
    ensures Aside(s, bars) == [] <==> AllCouldFill(s, bars)
    ensures Aside(s, bars) != [] ==> Unfilled(Aside(s, bars)) > 0.0
    ensures Unfilled(Aside(s, bars)) >= 0.0
  {
    hide DrainDue, SubmittedAt, Run, AllCouldFill, CanFill, Unfilled;
    if bars == [] {
      NothingAccepted(s, bars);
      QueueEmpty([]);
    } else {
      var n := |bars| - 1;
      var front, event := bars[..n], EventOf(s, bars[n], |bars|);
      AsideIffUnfillable(s, front);
      SubmittedFields(s, DrainDue(s, Run(s, front), event), event);
      LastCouldFill(s, bars);
      if SubmittedOn(s, bars).Some? {
        QueueAppend(Aside(s, front), Own(s, SubmittedOn(s, bars).value, event));
      }
      assert Aside(s, front) + [] == Aside(s, front);
    }
  }

  lemma NothingAccepted(s: Setup, bars: seq<Bar>)
    requires s.Valid() && bars == []
    ensures AllCouldFill(s, bars)
  {
  }

  lemma LastCouldFill(s: Setup, bars: seq<Bar>)
    requires s.Valid() && bars != []
    ensures var n := |bars| - 1;
            AllCouldFill(s, bars) <==>
            AllCouldFill(s, bars[..n]) && (SubmittedOn(s, bars).Some? ==> CanFill(s, bars[n].volume))
  {
    hide SubmittedOn, CanFill;
    var n := |bars| - 1;
    assert bars[..n + 1] == bars;
    assert forall k :: 0 <= k < n ==> bars[..n][..k + 1] == bars[..k + 1] && bars[..n][k] == bars[k];
  }

  /**
    The order balance closes without a forgotten order exactly when no order was accepted on a bar that could not fill
    it; that is, under MICROSTRUCTURE without latency, on a bar without volume.
   */
  lemma {:induction false} BalanceClosesIff(s: Setup, bars: seq<Bar>)
    requires s.Valid()
    ensures var st := Run(s, bars);
            && (st.requested == st.filled + Unfilled(st.pending) + Shortfall(st.orders) <==> AllCouldFill(s, bars))
            && ((forall i :: 0 <= i < |bars| ==> CanFill(s, bars[i].volume)) ==> AllCouldFill(s, bars))
  {
    hide Run, Shortfall, Unfilled, Ids, Accepted, Aside, AllCouldFill;
    RunKeepsLedger(s, bars);
    QueueConcat(Run(s, bars).pending, Aside(s, bars));
    QueueEmpty([]);
    AsideIffUnfillable(s, bars);
    if forall i :: 0 <= i < |bars| ==> CanFill(s, bars[i].volume) {
      FillableBars(s, bars);
    }
  }

  lemma FillableBars(s: Setup, bars: seq<Bar>)
    requires s.Valid() && forall i :: 0 <= i < |bars| ==> CanFill(s, bars[i].volume)
    ensures AllCouldFill(s, bars)
  {
  }
}
