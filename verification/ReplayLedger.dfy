/** Order table, fill table and queue of a session agree, and every step of a bar keeps them agreeing. */
module ReplayLedger {
  import opened Common
  import opened Execution
  import opened Portfolio
  import opened Decisions
  import opened Replay
  import opened ReplayLiquidity

  // ----- Measures over the tables -----

  function Ids(queue: seq<Pending>): multiset<nat>
  {
    if queue == [] then multiset{} else Ids(queue[..|queue| - 1]) + multiset{queue[|queue| - 1].order.id}
  }

  function Unfilled(queue: seq<Pending>): real
  {
    if queue == [] then 0.0 else Unfilled(queue[..|queue| - 1]) + queue[|queue| - 1].order.Unfilled()
  }

  /** The part of an order that was given up when it was declared filled. */
  function GivenUp(o: Order): real { if o.status == Filled then o.Unfilled() else 0.0 }

  function Shortfall(orders: seq<Order>): real
  {
    if orders == [] then 0.0 else Shortfall(orders[..|orders| - 1]) + GivenUp(orders[|orders| - 1])
  }

  function FilledCount(orders: seq<Order>): nat
  {
    if orders == [] then 0
    else FilledCount(orders[..|orders| - 1]) + if orders[|orders| - 1].status == Filled then 1 else 0
  }

  /** The quantity the fill table records for one order. */
  function FillQuantityOf(rows: seq<FillRow>, id: nat): real
  {
    if rows == [] then 0.0
    else
      FillQuantityOf(rows[..|rows| - 1], id)
      + if rows[|rows| - 1].fill.orderId == id then rows[|rows| - 1].fill.quantity else 0.0
  }

  function FillValueOf(rows: seq<FillRow>, id: nat): real
  {
    if rows == [] then 0.0
    else
      FillValueOf(rows[..|rows| - 1], id)
      + if rows[|rows| - 1].fill.orderId == id
        then rows[|rows| - 1].fill.price * rows[|rows| - 1].fill.quantity else 0.0
  }

  function TotalFilled(rows: seq<FillRow>): real
  {
    if rows == [] then 0.0 else TotalFilled(rows[..|rows| - 1]) + rows[|rows| - 1].fill.quantity
  }

  function Accepted(orders: seq<Order>): real
  {
    if orders == [] then 0.0
    else
      Accepted(orders[..|orders| - 1])
      + if orders[|orders| - 1].status == Rejected then 0.0 else orders[|orders| - 1].quantity
  }

  lemma {:induction false} QueueConcat(a: seq<Pending>, b: seq<Pending>)
    ensures Ids(a + b) == Ids(a) + Ids(b) && Unfilled(a + b) == Unfilled(a) + Unfilled(b)
  {
    if b == [] {
      assert a + b == a;
    } else {
      var front := b[..|b| - 1];
      assert (a + b)[..|a + b| - 1] == a + front;
      QueueConcat(a, front);
    }
  }

  lemma QueueAppend(a: seq<Pending>, p: Pending)
    ensures Ids(a + [p]) == Ids(a) + multiset{p.order.id} && Unfilled(a + [p]) == Unfilled(a) + p.order.Unfilled()
  {
    assert (a + [p])[..|a|] == a;
  }

  lemma QueueEmpty(queue: seq<Pending>)
    requires queue == []
    ensures Ids(queue) == multiset{} && Unfilled(queue) == 0.0
  {
  }

  /** Taking the due orders out of the queue splits it: nothing is lost and nothing is copied. */
  lemma {:induction false} QueueSplits(queue: seq<Pending>, sequence: nat)
    ensures var due, waiting := Due(queue, sequence), Waiting(queue, sequence);
            Ids(queue) == Ids(waiting) + Ids(due) && Unfilled(queue) == Unfilled(waiting) + Unfilled(due)
  {
    hide Ids, Unfilled;
    if queue == [] {
      QueueEmpty(queue);
      return;
    }
    var front, last := queue[..|queue| - 1], queue[|queue| - 1];
    QueueSplits(front, sequence);
    assert queue == front + [last];
    QueueAppend(front, last);
    if last.due <= sequence {
      assert Due(queue, sequence) == Due(front, sequence) + [last];
      assert Waiting(queue, sequence) == Waiting(front, sequence);
      QueueAppend(Due(front, sequence), last);
    } else {
      assert Due(queue, sequence) == Due(front, sequence);
      assert Waiting(queue, sequence) == Waiting(front, sequence) + [last];
      QueueAppend(Waiting(front, sequence), last);
    }
  }

  lemma {:induction false} SplittingKeepsMembers(queue: seq<Pending>, sequence: nat, p: Pending)
    ensures p in queue <==> p in Due(queue, sequence) || p in Waiting(queue, sequence)
    ensures p in Due(queue, sequence) ==> p.due <= sequence
  {
    if queue != [] {
      SplittingKeepsMembers(queue[..|queue| - 1], sequence, p);
      assert queue == queue[..|queue| - 1] + [queue[|queue| - 1]];
    }
  }

  lemma {:induction false} OrderTableSet(orders: seq<Order>, i: nat, o: Order)
    requires i < |orders|
    ensures Shortfall(orders[i := o]) == Shortfall(orders) - GivenUp(orders[i]) + GivenUp(o)
    ensures FilledCount(orders[i := o])
            == FilledCount(orders) - (if orders[i].status == Filled then 1 else 0) + if o.status == Filled then 1 else 0
    ensures o.quantity == orders[i].quantity && (o.status == Rejected <==> orders[i].status == Rejected) ==>
              Accepted(orders[i := o]) == Accepted(orders)
  {
    hide GivenUp;
    var n := |orders| - 1;
    if i == n {
      assert orders[i := o][..n] == orders[..n];
    } else {
      assert orders[i := o][..n] == orders[..n][i := o];
      OrderTableSet(orders[..n], i, o);
    }
  }

  // ----- The invariant -----

  ghost predicate Sound(o: Order, tolerance: real) {
    && o.status != Created
    && (o.status == Rejected ==> o.filled == 0.0 && o.averagePrice == 0.0)
    && (o.status != Rejected ==> 0.0 < o.quantity && 0.0 <= o.filled <= o.quantity)
    && (o.status == Submitted ==> o.filled == 0.0 && o.averagePrice == 0.0)
    && (o.status == PartiallyFilled ==> 0.0 < o.filled < o.quantity)
    && (o.status == Filled ==> o.Unfilled() <= tolerance)
  }

  /** Each order's row agrees with the fill table: the quantity, and the mean price weighted by quantity. */
  ghost predicate Recorded(orders: seq<Order>, fills: seq<FillRow>, filled: real) {
    && (forall i :: 0 <= i < |orders| ==>
          && FillQuantityOf(fills, i) == orders[i].filled
          && FillValueOf(fills, i) == orders[i].averagePrice * orders[i].filled)
    && (forall k :: 0 <= k < |fills| ==> fills[k].fill.orderId < |orders| && fills[k].fill.quantity > 0.0)
    && TotalFilled(fills) == filled
  }

  ghost predicate SoundTable(s: Setup, orders: seq<Order>) {
    forall i :: 0 <= i < |orders| ==>
      orders[i].id == i && orders[i].symbol == s.symbol && Sound(orders[i], s.execution.tolerance)
  }

  /** A queued order is the order table's own row, and an order is queued once exactly while it is open. */
  ghost predicate Tracked(orders: seq<Order>, queue: seq<Pending>) {
    && (forall p :: p in queue ==> p.order.id < |orders| && orders[p.order.id] == p.order)
    && (forall i :: 0 <= i < |orders| ==> Ids(queue)[i] == if orders[i].Executable() then 1 else 0)
  }

  ghost predicate Ledger(s: Setup, st: State, queue: seq<Pending>) {
    && Wired(st) && SoundTable(s, st.orders) && Recorded(st.orders, st.fills, st.filled) && Tracked(st.orders, queue)
    && st.requested == Accepted(st.orders) == st.filled + Unfilled(queue) + Shortfall(st.orders)
    && st.partials + FilledCount(st.orders) == |st.fills|
  }

  lemma {:induction false} IdCounted(queue: seq<Pending>, p: Pending)
    requires p in queue
    ensures Ids(queue)[p.order.id] >= 1
  {
    var front, last := queue[..|queue| - 1], queue[|queue| - 1];
    assert queue == front + [last];
    if p in front {
      IdCounted(front, p);
    }
  }

  lemma QueuedIsExecutable(orders: seq<Order>, queue: seq<Pending>, p: Pending)
    requires Tracked(orders, queue) && p in queue
    ensures p.order.Executable()
  {
    IdCounted(queue, p);
  }

  // ----- One execution keeps the ledger -----

  /** The queue after an execution of the order at its head: gone, or back with what is left. */
  function Requeued(rest: seq<Pending>, x: Execution, event: MarketEvent): seq<Pending> {
    if x.order.status == PartiallyFilled then rest + [Pending(event.sequence + 1, x.order)] else rest
  }

  lemma FillRecorded(rows: seq<FillRow>, row: FillRow, id: nat)
    ensures FillQuantityOf(rows + [row], id)
            == FillQuantityOf(rows, id) + (if row.fill.orderId == id then row.fill.quantity else 0.0)
    ensures FillValueOf(rows + [row], id)
            == FillValueOf(rows, id) + (if row.fill.orderId == id then row.fill.price * row.fill.quantity else 0.0)
    ensures TotalFilled(rows + [row]) == TotalFilled(rows) + row.fill.quantity
  {
    assert (rows + [row])[..|rows|] == rows;
  }

  lemma SettleRecords(st: State, order: Order, x: Execution, event: MarketEvent, tolerance: real)
    requires Wired(st) && Recorded(st.orders, st.fills, st.filled) && order.id < |st.orders| && st.orders[order.id] == order
    requires Advances(order, x, tolerance) && x.fills != [] && x.order.filled >= 0.0
    ensures var t := Settle(st, x, event, tolerance); Recorded(t.orders, t.fills, t.filled)
  {
    hide ApplyFill, FillQuantityOf, FillValueOf, TotalFilled;
    var row := FillRow(event.sequence, x.fills[0]);
    FillRecorded(st.fills, row, 0);
    forall i | 0 <= i < |st.orders|
      ensures var t := Settle(st, x, event, tolerance);
              && FillQuantityOf(t.fills, i) == t.orders[i].filled
              && FillValueOf(t.fills, i) == t.orders[i].averagePrice * t.orders[i].filled
    {
      FillRecorded(st.fills, row, i);
    }
  }

  lemma TrackedAfter(orders: seq<Order>, queue: seq<Pending>, rest: seq<Pending>, order: Order, x: Execution,
                     event: MarketEvent)
    requires Tracked(orders, queue) && order.id < |orders| && orders[order.id] == order && order.Executable()
    requires Ids(queue) == Ids(rest) + multiset{order.id} && forall p :: p in rest ==> p in queue
    requires x.order.id == order.id && (x.order.status == Filled || x.order.status == PartiallyFilled)
    ensures Tracked(orders[order.id := x.order], Requeued(rest, x, event))
  {
    hide Ids;
    var after := orders[order.id := x.order];
    QueueAppend(rest, Pending(event.sequence + 1, x.order));
    forall p | p in rest
      ensures p.order.id < |after| && after[p.order.id] == p.order
    {
      IdCounted(rest, p);
      assert Ids(queue)[order.id] == 1;
    }
  }

  lemma SettleKeepsLedger(s: Setup, st: State, queue: seq<Pending>, rest: seq<Pending>, order: Order, x: Execution,
                          event: MarketEvent)
    requires s.Valid() && Ledger(s, st, queue)
    requires order.id < |st.orders| && st.orders[order.id] == order && order.Executable()
    requires Ids(queue) == Ids(rest) + multiset{order.id} && Unfilled(queue) == Unfilled(rest) + order.Unfilled()
    requires forall p :: p in rest ==> p in queue
    requires Advances(order, x, s.execution.tolerance) && x.fills != [] && x.order.filled >= 0.0
    ensures Ledger(s, Settle(st, x, event, s.execution.tolerance), Requeued(rest, x, event))
  {
    hide ApplyFill, Recorded, Tracked, Sound, Advances, GivenUp, Shortfall, FilledCount, Accepted, Ids, Unfilled;
    AdvancedOrder(order, x, s.execution.tolerance);
    SettleRecords(st, order, x, event, s.execution.tolerance);
    TrackedAfter(st.orders, queue, rest, order, x, event);
    OrderTableSet(st.orders, order.id, x.order);
    QueueAppend(rest, Pending(event.sequence + 1, x.order));
  }

  /** What an execution fills and what it leaves open or gives up add up to what was open before. */
  lemma AdvancedOrder(order: Order, x: Execution, tolerance: real)
    requires Sound(order, tolerance) && order.Executable() && tolerance >= 0.0
    requires Advances(order, x, tolerance) && x.fills != []
    ensures Sound(x.order, tolerance)
    ensures x.order.id == order.id && x.order.symbol == order.symbol && x.order.quantity == order.quantity
    ensures x.order.status == Filled || x.order.status == PartiallyFilled
    ensures order.Unfilled() == x.fills[0].quantity + GivenUp(x.order)
                                + if x.order.status == PartiallyFilled then x.order.Unfilled() else 0.0
    ensures GivenUp(order) == 0.0
  {
  }

  /** The ledger looks at the tables and the counts, not at the portfolio. */
  lemma SameTables(s: Setup, st: State, t: State, queue: seq<Pending>, other: seq<Pending>)
    requires Ledger(s, st, queue) && Wired(t)
    requires t.orders == st.orders && t.submitted == st.submitted && t.fills == st.fills
    requires t.requested == st.requested && t.filled == st.filled && t.partials == st.partials
    requires Ids(other) == Ids(queue) && Unfilled(other) == Unfilled(queue)
    requires forall p :: p in other ==> p.order.id < |t.orders| && t.orders[p.order.id] == p.order
    ensures Ledger(s, t, other)
  {
    hide Recorded, SoundTable, Accepted, Shortfall, FilledCount, Ids, Unfilled;
  }

  lemma OpenOrderWants(s: Setup, st: State, queue: seq<Pending>, p: Pending)
    requires Ledger(s, st, queue) && p in queue
    ensures Wanting(p.order) && p.order.id < |st.orders| && st.orders[p.order.id] == p.order
    ensures Sound(p.order, s.execution.tolerance)
  {
    QueuedIsExecutable(st.orders, queue, p);
  }

  /** One turn of the drain keeps the ledger over the queue and the orders still due. */
  lemma DrainOneKeepsLedger(s: Setup, d: Drain, p: Pending, event: MarketEvent, rest: seq<Pending>)
    requires s.Valid() && !d.state.failed && Ledger(s, d.state, d.state.pending + ([p] + rest))
    requires Available(s, d, event) <= Budget(s, event)
    ensures Wanting(p.order) && p.order.id < |d.state.orders|
    ensures var e := DrainOne(s, d, p.order, event);
            !e.state.failed && Ledger(s, e.state, e.state.pending + rest) && Available(s, e, event) <= Budget(s, event)
  {
    var st, order := d.state, p.order;
    var queue, left := st.pending + ([p] + rest), st.pending + rest;
    OpenOrderWants(s, st, queue, p);
    QueueMiddle(st.pending, p, rest);
    DrainOneGrants(s, d, order, event);
    var e := DrainOne(s, d, order, event);
    DrainedBudget(s, d, order, event);
    hide Ledger, DrainOne, Settle, Advances, BrokerExecute, Ids, Unfilled, Budget, Available, Turn, Granted;
    if Granted(s, d, order, event) > 0.0 {
      var x := Turn(s, d, order, event).value;
      SettleKeepsLedger(s, st, queue, left, order, x, event);
      SettledQueue(s, st, x, event, rest, left);
    } else {
      DeferKeepsLedger(s, st, p, event, rest);
    }
  }

  lemma DrainedBudget(s: Setup, d: Drain, order: Order, event: MarketEvent)
    requires s.Valid() && Wanting(order) && Wired(d.state) && order.id < |d.state.orders| && !d.state.failed
    requires Available(s, d, event) <= Budget(s, event)
    ensures Available(s, DrainOne(s, d, order, event), event) <= Budget(s, event)
  {
    hide BrokerExecute, Settle, Budget;
    DrainOneGrants(s, d, order, event);
  }

  lemma QueueMiddle(a: seq<Pending>, p: Pending, b: seq<Pending>)
    ensures Ids(a + ([p] + b)) == Ids(a + b) + multiset{p.order.id}
    ensures Unfilled(a + ([p] + b)) == Unfilled(a + b) + p.order.Unfilled()
  {
    hide Ids, Unfilled;
    QueueConcat(a, [p] + b);
    QueueConcat([p], b);
    QueueConcat(a, b);
    QueueEmpty([]);
    QueueAppend([], p);
    assert [] + [p] == [p];
  }

  lemma TrackedRows(s: Setup, st: State, queue: seq<Pending>)
    requires Ledger(s, st, queue)
    ensures forall p :: p in queue ==> p.order.id < |st.orders| && st.orders[p.order.id] == p.order
  {
  }

  lemma SettledQueue(s: Setup, st: State, x: Execution, event: MarketEvent, rest: seq<Pending>, left: seq<Pending>)
    requires Wired(st) && x.order.id < |st.orders| && x.order.filled >= 0.0 && left == st.pending + rest
    requires Ledger(s, Settle(st, x, event, s.execution.tolerance), Requeued(left, x, event))
    ensures var t := Settle(st, x, event, s.execution.tolerance); Ledger(s, t, t.pending + rest)
  {
    hide ApplyFill, Recorded, SoundTable, Accepted, Shortfall, FilledCount, Ids, Unfilled, Tracked, Ledger;
    var t, again := Settle(st, x, event, s.execution.tolerance), Pending(event.sequence + 1, x.order);
    if x.order.status == PartiallyFilled {
      QueueMiddle(st.pending, again, rest);
      QueueAppend(left, again);
      assert t.pending + rest == st.pending + ([again] + rest);
      TrackedRows(s, t, left + [again]);
      assert forall p :: p in t.pending + rest ==> p in left + [again];
      SameTables(s, t, t, left + [again], t.pending + rest);
    }
  }

  lemma DeferKeepsLedger(s: Setup, st: State, p: Pending, event: MarketEvent, rest: seq<Pending>)
    requires Ledger(s, st, st.pending + ([p] + rest))
    requires p.order.id < |st.orders| && st.orders[p.order.id] == p.order && p.order.filled >= 0.0
    ensures var t := Defer(st, p.order, event); Ledger(s, t, t.pending + rest)
  {
    hide Recorded, SoundTable, Accepted, Shortfall, FilledCount, Ids, Unfilled;
    var t, again := Defer(st, p.order, event), Pending(event.sequence + 1, p.order);
    QueueMiddle(st.pending, p, rest);
    QueueMiddle(st.pending, again, rest);
    assert t.pending + rest == st.pending + ([again] + rest);
    SameTables(s, st, t, st.pending + ([p] + rest), t.pending + rest);
  }

  lemma {:induction false} DrainAllKeepsLedger(s: Setup, d: Drain, due: seq<Pending>, rest: seq<Pending>,
                                              event: MarketEvent)
    requires s.Valid() && !d.state.failed && Ledger(s, d.state, d.state.pending + (due + rest))
    requires Available(s, d, event) <= Budget(s, event)
    ensures Queued(due, |d.state.orders|)
    ensures var e := DrainAll(s, d, due, event);
            !e.state.failed && Ledger(s, e.state, e.state.pending + rest) && Available(s, e, event) <= Budget(s, event)
  {
    forall i | 0 <= i < |due|
      ensures due[i].order.id < |d.state.orders| && due[i].order.filled >= 0.0
    {
      assert due[i] in d.state.pending + (due + rest);
      OpenOrderWants(s, d.state, d.state.pending + (due + rest), due[i]);
    }
    hide Ledger, DrainOne, Budget, Available;
    if due == [] {
      assert due + rest == rest;
    } else {
      var front, last := due[..|due| - 1], due[|due| - 1];
      assert due + rest == front + ([last] + rest);
      DrainAllKeepsLedger(s, d, front, [last] + rest, event);
      DrainOneKeepsLedger(s, DrainAll(s, d, front, event), last, event, rest);
    }
  }

  lemma LedgerIsWired(s: Setup, st: State, queue: seq<Pending>)
    requires Ledger(s, st, queue)
    ensures Wired(st)
  {
  }

  /** The whole drain of a bar keeps the ledger, whatever orders are set aside, and never fails. */
  lemma DrainDueKeepsLedger(s: Setup, st: State, event: MarketEvent, aside: seq<Pending>)
    requires s.Valid() && !st.failed && Ledger(s, st, st.pending + aside)
    ensures var t := DrainDue(s, st, event); !t.failed && Ledger(s, t, t.pending + aside)
  {
    hide Ledger, DrainOne;
    var due, waiting := Due(st.pending, event.sequence), Waiting(st.pending, event.sequence);
    LedgerIsWired(s, st, st.pending + aside);
    SplittingKeepsQueued(st.pending, event.sequence, |st.orders|);
    SplitKeepsLedger(s, st, event.sequence, aside);
    DrainAllKeepsLedger(s, Drain(st.(pending := waiting), None), due, aside, event);
  }

  lemma SplitKeepsLedger(s: Setup, st: State, sequence: nat, aside: seq<Pending>)
    requires Ledger(s, st, st.pending + aside)
    ensures Ledger(s, st.(pending := Waiting(st.pending, sequence)),
                   Waiting(st.pending, sequence) + (Due(st.pending, sequence) + aside))
  {
    hide Recorded, SoundTable, Accepted, Shortfall, FilledCount, Ids, Unfilled;
    var due, waiting := Due(st.pending, sequence), Waiting(st.pending, sequence);
    SplittingKeepsQueued(st.pending, sequence, |st.orders|);
    QueueSplits(st.pending, sequence);
    QueueConcat(waiting, due + aside);
    QueueConcat(due, aside);
    QueueConcat(st.pending, aside);
    forall p: Pending | p in waiting + (due + aside)
      ensures p.order.id < |st.orders| && st.orders[p.order.id] == p.order
    {
      SplittingKeepsMembers(st.pending, sequence, p);
      assert p in st.pending + aside;
    }
    SameTables(s, st, st.(pending := waiting), st.pending + aside, waiting + (due + aside));
  }

  // ----- A new order -----

  lemma {:induction false} NoFillsYet(fills: seq<FillRow>, id: nat)
    requires forall k :: 0 <= k < |fills| ==> fills[k].fill.orderId < id
    ensures FillQuantityOf(fills, id) == 0.0 && FillValueOf(fills, id) == 0.0
  {
    if fills != [] {
      NoFillsYet(fills[..|fills| - 1], id);
    }
  }

  lemma AppendRecords(orders: seq<Order>, order: Order, fills: seq<FillRow>, filled: real)
    requires Recorded(orders, fills, filled) && order.filled == 0.0
    ensures Recorded(orders + [order], fills, filled)
  {
    NoFillsYet(fills, |orders|);
    hide FillQuantityOf, FillValueOf, TotalFilled;
  }

  lemma AppendOrderTable(orders: seq<Order>, order: Order)
    ensures Shortfall(orders + [order]) == Shortfall(orders) + GivenUp(order)
    ensures Accepted(orders + [order]) == Accepted(orders) + if order.status == Rejected then 0.0 else order.quantity
    ensures FilledCount(orders + [order]) == FilledCount(orders) + if order.status == Filled then 1 else 0
  {
    assert (orders + [order])[..|orders|] == orders;
  }

  /** The risk check turns a created order into a row of the table: rejected, or submitted with something to fill. */
  lemma CheckedOrder(s: Setup, st: State, signal: Signal, price: real)
    requires s.Valid()
    ensures var o := Check(NewOrder(st, s, signal), st.book, price, st.seen, s.risk, s.execution.tolerance);
            && o.id == |st.orders| && o.symbol == s.symbol && o.filled == 0.0 && o.averagePrice == 0.0
            && o.quantity == signal.quantity && o.side == (if signal.direction == BuySignal then Buy else Sell)
            && (o.status == Rejected || (o.status == Submitted && o.quantity > 0.0))
            && Sound(o, s.execution.tolerance)
  {
  }

  function Enter(st: State, order: Order, sequence: nat): State {
    st.(orders := st.orders + [order], submitted := st.submitted + [sequence])
  }

  ghost predicate Fresh(s: Setup, st: State, order: Order) {
    && order.id == |st.orders| && order.symbol == s.symbol && order.filled == 0.0 && order.averagePrice == 0.0
    && Sound(order, s.execution.tolerance)
  }

  lemma FreshIds(s: Setup, st: State, queue: seq<Pending>)
    requires Ledger(s, st, queue)
    ensures forall id :: id >= |st.orders| ==> Ids(queue)[id] == 0
  {
    forall id: nat | id >= |st.orders|
      ensures Ids(queue)[id] == 0
    {
      IdsBelow(queue, |st.orders|, id);
    }
  }

  lemma {:induction false} IdsBelow(queue: seq<Pending>, rows: nat, id: nat)
    requires (forall p :: p in queue ==> p.order.id < rows) && id >= rows
    ensures Ids(queue)[id] == 0
  {
    if queue != [] {
      IdsBelow(queue[..|queue| - 1], rows, id);
    }
  }

  lemma RejectedKeepsLedger(s: Setup, st: State, queue: seq<Pending>, order: Order, sequence: nat)
    requires Ledger(s, st, queue) && Fresh(s, st, order) && order.status == Rejected
    ensures Ledger(s, Enter(st, order, sequence), queue)
  {
    hide Recorded, Accepted, Shortfall, FilledCount, Ids, Unfilled, Sound;
    FreshIds(s, st, queue);
    AppendRecords(st.orders, order, st.fills, st.filled);
    AppendOrderTable(st.orders, order);
  }

  lemma AcceptedKeepsLedger(s: Setup, st: State, queue: seq<Pending>, order: Order, sequence: nat, due: int,
                            seen: set<OrderKey>)
    requires Ledger(s, st, queue) && Fresh(s, st, order) && order.status == Submitted
    ensures var u := Enter(st, order, sequence).(seen := seen, requested := st.requested + order.quantity);
            Ledger(s, u, queue + [Pending(due, order)])
  {
    hide Recorded, Accepted, Shortfall, FilledCount, Ids, Unfilled, Sound;
    FreshIds(s, st, queue);
    AppendRecords(st.orders, order, st.fills, st.filled);
    AppendOrderTable(st.orders, order);
    QueueAppend(queue, Pending(due, order));
  }

  /** A new order can only find nothing to fill when MICROSTRUCTURE executes it at once on a bar without volume. */
  predicate CanFill(s: Setup, volume: int) {
    volume > 0 || s.execution.latency != 0 || s.execution.model != Microstructure
  }

  /** Executed at once, a new order has the bar's whole participation. */
  lemma NewOrderFills(s: Setup, order: Order, event: MarketEvent)
    requires s.Valid() && Wanting(order) && s.execution.latency == 0 && CanFill(s, event.volume)
    ensures var r := BrokerExecute(order, event, s.execution, s.risk.commissionBps);
            && r.Ok? && |r.value.fills| == 1 && Advances(order, r.value, s.execution.tolerance)
            && r.value.fills[0].quantity
               == if s.execution.model == Microstructure then MinReal(order.Unfilled(), Budget(s, event))
                  else order.Unfilled()
  {
    hide MarketStateOf, BrokerExecute, Advances;
    StateVolume(event, s.execution);
    if s.execution.model == Microstructure {
      assert event.volume as real * s.execution.maxParticipation > 0.0;
    }
    FillsOnce(order, event, s.execution, s.risk.commissionBps);
  }

  /** The entry an order would have in the queue. */
  function Own(s: Setup, order: Order, event: MarketEvent): Pending {
    Pending(event.sequence + s.execution.latency, order)
  }

  /** What a submission sets aside: the order itself when the bar cannot fill it at once, else nothing. */
  function SetAside(s: Setup, order: Order, event: MarketEvent): seq<Pending> {
    if CanFill(s, event.volume) then [] else [Own(s, order, event)]
  }

  /** Executed at once on a bar that cannot fill it, an order comes back as it was. */
  lemma NothingToFill(s: Setup, order: Order, event: MarketEvent)
    requires s.Valid() && Wanting(order) && !CanFill(s, event.volume)
    ensures BrokerExecute(order, event, s.execution, s.risk.commissionBps) == Ok(Execution(order, []))
  {
    hide MarketStateOf, Price, Impact, Reference;
    StateVolume(event, s.execution);
    var m := MarketStateOf(event, s.execution);
    assert m.volume as real * s.execution.maxParticipation <= 0.0;
    assert FillQuantity(order, m, s.execution) == 0.0;
    assert ExecuteOrder(order, m, s.execution) == Ok(Execution(order, []));
    assert BrokerExecute(order, event, s.execution, s.risk.commissionBps).value.fills == [];
  }

  lemma SubmitKeepsLedger(s: Setup, st: State, aside: seq<Pending>, order: Order, event: MarketEvent, seen: set<OrderKey>)
    requires s.Valid() && !st.failed && Ledger(s, st, st.pending + aside)
    requires Fresh(s, st, order) && order.status == Submitted && Wanting(order)
    ensures var t := Submit(s, Enter(st, order, event.sequence).(seen := seen), order, event);
            !t.failed && Ledger(s, t, t.pending + (aside + SetAside(s, order, event)))
  {
    hide Ledger, Fresh, Ids, Unfilled, Sound, BrokerExecute, Advances, ApplyFill, Settle, Budget;
    var u := Enter(st, order, event.sequence).(seen := seen, requested := st.requested + order.quantity);
    var own := Own(s, order, event);
    AcceptedKeepsLedger(s, st, st.pending + aside, order, event.sequence, event.sequence + s.execution.latency, seen);
    if s.execution.latency != 0 {
      QueueKeepsLedger(s, u, aside, own);
      assert aside + [] == aside;
    } else if CanFill(s, event.volume) {
      NewOrderFills(s, order, event);
      ExecuteKeepsLedger(s, u, aside, order, event);
      assert aside + [] == aside;
    } else {
      NothingToFill(s, order, event);
      OpenOrderWants(s, u, st.pending + aside + [own], own);
      LedgerIsWired(s, u, st.pending + aside + [own]);
      LeftAsItWas(s, u, order, event);
      assert st.pending + aside + [own] == st.pending + (aside + [own]);
    }
  }

  /** An execution without a fill of a submitted order changes nothing. */
  lemma LeftAsItWas(s: Setup, u: State, order: Order, event: MarketEvent)
    requires Wired(u) && order.id < |u.orders| && u.orders[order.id] == order && order.filled >= 0.0
    requires order.status == Submitted
    ensures Settle(u, Execution(order, []), event, s.execution.tolerance) == u
  {
    assert u.orders[order.id := order] == u.orders;
  }

  lemma QueueKeepsLedger(s: Setup, u: State, aside: seq<Pending>, own: Pending)
    requires Ledger(s, u, u.pending + aside + [own]) && own.order.filled >= 0.0
    ensures var t := u.(pending := u.pending + [own]); Ledger(s, t, t.pending + aside)
  {
    hide Recorded, SoundTable, Accepted, Shortfall, FilledCount, Ids, Unfilled, Sound;
    var t := u.(pending := u.pending + [own]);
    assert own in u.pending + aside + [own];
    QueueAppend(u.pending + aside, own);
    QueueMiddle(u.pending, own, aside);
    assert t.pending + aside == u.pending + ([own] + aside);
    SameTables(s, u, t, u.pending + aside + [own], t.pending + aside);
  }

  lemma ExecuteKeepsLedger(s: Setup, u: State, aside: seq<Pending>, order: Order, event: MarketEvent)
    requires s.Valid() && order.filled >= 0.0
    requires Ledger(s, u, u.pending + aside + [Own(s, order, event)])
    requires var r := BrokerExecute(order, event, s.execution, s.risk.commissionBps);
             r.Ok? && |r.value.fills| == 1 && Advances(order, r.value, s.execution.tolerance)
    ensures order.id < |u.orders|
    ensures var x := BrokerExecute(order, event, s.execution, s.risk.commissionBps).value;
            var t := Settle(u, x, event, s.execution.tolerance);
            Ledger(s, t, t.pending + aside)
  {
    hide Ledger, Ids, Unfilled, Sound, BrokerExecute, Advances, ApplyFill, Settle;
    var own, rest := Own(s, order, event), u.pending + aside;
    var x := BrokerExecute(order, event, s.execution, s.risk.commissionBps).value;
    OpenOrderWants(s, u, rest + [own], own);
    LedgerIsWired(s, u, rest + [own]);
    QueueAppend(rest, own);
    SettleKeepsLedger(s, u, rest + [own], rest, order, x, event);
    SettledQueue(s, u, x, event, aside, rest);
  }

  /** The order a bar's signal submits past the risk check, if it submits one. */
  ghost function SubmittedAt(s: Setup, st: State, event: MarketEvent): Option<Order>
    requires s.Valid()
  {
    var book := MarkPrice(st.book, event.symbol, event.open);
    var signal := OnMarket(s.windows, st.history, event, book, s.execution.tolerance);
    if signal.direction == Hold then None
    else
      var order := Check(NewOrder(st, s, signal), book, event.open, st.seen, s.risk, s.execution.tolerance);
      if order.status == Rejected then None else Some(order)
  }

  ghost function AsideAt(s: Setup, st: State, event: MarketEvent): seq<Pending>
    requires s.Valid()
  {
    var o := SubmittedAt(s, st, event);
    if o.Some? then SetAside(s, o.value, event) else []
  }

  lemma TradeKeepsLedger(s: Setup, st: State, event: MarketEvent, aside: seq<Pending>)
    requires s.Valid() && !st.failed && Ledger(s, st, st.pending + aside)
    ensures var t := Trade(s, st, event);
            !t.failed && Ledger(s, t, t.pending + (aside + AsideAt(s, st, event)))
  {
    hide OnMarket, Check, Submit, Ledger, Sound, SetAside;
    var marked := st.(book := MarkPrice(st.book, event.symbol, event.open));
    var signal := OnMarket(s.windows, marked.history, event, marked.book, s.execution.tolerance);
    var u := marked.(signals := marked.signals + [signal]);
    LedgerIgnoresBook(s, st, u, aside);
    assert aside + [] == aside;
    if signal.direction != Hold {
      var order := Check(NewOrder(u, s, signal), u.book, event.open, u.seen, s.risk, s.execution.tolerance);
      CheckedOrder(s, u, signal, event.open);
      if order.status == Rejected {
        RejectedKeepsLedger(s, u, u.pending + aside, order, event.sequence);
      } else {
        SubmitKeepsLedger(s, u, aside, order, event, u.seen + {KeyOf(order)});
      }
    }
  }

  lemma LedgerIgnoresBook(s: Setup, st: State, t: State, aside: seq<Pending>)
    requires Ledger(s, st, st.pending + aside)
    requires t == st.(book := t.book, signals := t.signals, history := t.history)
    ensures Ledger(s, t, t.pending + aside)
  {
    hide Recorded, SoundTable, Accepted, Shortfall, FilledCount, Ids, Unfilled, Sound;
  }
}
