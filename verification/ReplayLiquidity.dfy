/** How a bar's liquidity is shared by the orders due on it. */
module ReplayLiquidity {
  import opened Common
  import opened Execution
  import opened Portfolio
  import opened Decisions
  import opened Replay

  /** A due order that still wants something. */
  predicate Wanting(o: Order) { o.Executable() && o.filled >= 0.0 && o.Unfilled() > 0.0 }

  predicate Ready(due: seq<Pending>) { forall i :: 0 <= i < |due| ==> Wanting(due[i].order) }

  function Budget(s: Setup, event: MarketEvent): real { event.volume as real * s.execution.maxParticipation }

  /** The configuration and the execution of an order whose turn it is. */
  function TurnConfig(s: Setup, d: Drain, event: MarketEvent): Config {
    if s.execution.model == Microstructure && event.volume != 0
    then OwnConfig(s.execution, Available(s, d, event), event.volume) else s.execution
  }

  function Turn(s: Setup, d: Drain, order: Order, event: MarketEvent): Result<Execution, Failure>
    requires order.filled >= 0.0
  {
    BrokerExecute(order, event, TurnConfig(s, d, event), s.risk.commissionBps)
  }

  lemma ShareOfVolume(available: real, volume: int, rate: real)
    requires 0.0 < available <= volume as real * rate && 0.0 < rate <= 1.0
    ensures volume > 0 && 0.0 < available / volume as real <= 1.0
    ensures volume as real * (available / volume as real) == available
  {
    var v := volume as real;
    assert v * rate > 0.0;
    assert v > 0.0;
    assert v * rate <= v;
  }

  lemma StateVolume(event: MarketEvent, c: Config)
    ensures MarketStateOf(event, c).volume == event.volume
  {
  }

  /** An executable order on its own configuration makes exactly one fill, of the quantity the model allows. */
  lemma FillsOnce(order: Order, event: MarketEvent, c: Config, commissionBps: real)
    requires Wanting(order) && FillQuantity(order, MarketStateOf(event, c), c) > 0.0
    ensures var r := BrokerExecute(order, event, c, commissionBps);
            && r.Ok? && |r.value.fills| == 1
            && r.value.fills[0].quantity == FillQuantity(order, MarketStateOf(event, c), c)
            && Advances(order, r.value, c.tolerance)
  {
    BrokerAdvances(order, event, c, commissionBps);
    hide Price, Impact, Reference, MarketStateOf, FillQuantity;
  }

  /** What one order receives when its turn comes. */
  function Granted(s: Setup, d: Drain, order: Order, event: MarketEvent): real {
    if s.execution.model == Microstructure
    then MinReal(order.Unfilled(), MaxReal(0.0, Available(s, d, event))) else order.Unfilled()
  }

  lemma TurnIsValid(s: Setup, d: Drain, order: Order, event: MarketEvent)
    requires s.Valid() && Wanting(order) && Granted(s, d, order, event) > 0.0
    requires Available(s, d, event) <= Budget(s, event)
    ensures var c := TurnConfig(s, d, event);
            && c.Valid() && c.tolerance == s.execution.tolerance
            && FillQuantity(order, MarketStateOf(event, c), c) == Granted(s, d, order, event)
    ensures s.execution.model == Microstructure ==> event.volume > 0 && Available(s, d, event) > 0.0
  {
    hide MarketStateOf;
    StateVolume(event, TurnConfig(s, d, event));
    if s.execution.model == Microstructure {
      ShareOfVolume(Available(s, d, event), event.volume, s.execution.maxParticipation);
    }
  }

  lemma TurnFills(s: Setup, d: Drain, order: Order, event: MarketEvent)
    requires s.Valid() && Wanting(order) && Granted(s, d, order, event) > 0.0
    requires Available(s, d, event) <= Budget(s, event)
    ensures TurnConfig(s, d, event).Valid()
    ensures s.execution.model == Microstructure ==> event.volume > 0 && Available(s, d, event) > 0.0
    ensures var r := Turn(s, d, order, event);
            && r.Ok? && |r.value.fills| == 1
            && r.value.fills[0].quantity == Granted(s, d, order, event)
            && Advances(order, r.value, s.execution.tolerance)
  {
    hide MarketStateOf, Advances, Budget, Available, TurnConfig, Granted, FillQuantity, BrokerExecute;
    TurnIsValid(s, d, order, event);
    FillsOnce(order, event, TurnConfig(s, d, event), s.risk.commissionBps);
  }

  /** One turn: a fill of the granted quantity, or, with nothing left, a wait until the next bar. It never fails. */
  lemma DrainOneGrants(s: Setup, d: Drain, order: Order, event: MarketEvent)
    requires s.Valid() && Wanting(order) && Wired(d.state) && order.id < |d.state.orders| && !d.state.failed
    requires Available(s, d, event) <= Budget(s, event)
    ensures var e, grant, r := DrainOne(s, d, order, event), Granted(s, d, order, event), Turn(s, d, order, event);
            && !e.state.failed
            && (s.execution.model == Microstructure ==>
                  Available(s, e, event) == Available(s, d, event) - MaxReal(0.0, grant))
            && (grant <= 0.0 ==> e.state == Defer(d.state, order, event))
            && (grant > 0.0 ==>
                  && r.Ok? && |r.value.fills| == 1 && r.value.fills[0].quantity == grant
                  && Advances(order, r.value, s.execution.tolerance)
                  && r.value.order.filled >= 0.0
                  && e.state == Settle(d.state, r.value, event, s.execution.tolerance))
  {
    if Granted(s, d, order, event) > 0.0 {
      TurnFills(s, d, order, event);
      TurnSettles(s, d, order, event);
    } else {
      TurnDefers(s, d, order, event);
    }
    hide BrokerExecute, Advances, Settle, Budget, DrainOne, Turn;
  }

  lemma TurnDefers(s: Setup, d: Drain, order: Order, event: MarketEvent)
    requires Wanting(order) && Wired(d.state) && order.id < |d.state.orders| && !d.state.failed
    requires Granted(s, d, order, event) <= 0.0
    ensures s.execution.model == Microstructure
    ensures DrainOne(s, d, order, event)
            == Drain(Defer(d.state, order, event), Some(Available(s, d, event)))
  {
    hide BrokerExecute, Settle;
  }

  lemma TurnSettles(s: Setup, d: Drain, order: Order, event: MarketEvent)
    requires Wanting(order) && Wired(d.state) && order.id < |d.state.orders| && !d.state.failed
    requires TurnConfig(s, d, event).Valid()
    requires s.execution.model == Microstructure ==> event.volume > 0 && Available(s, d, event) > 0.0
    requires var r := Turn(s, d, order, event); r.Ok? && |r.value.fills| == 1
    ensures var e, x := DrainOne(s, d, order, event), Turn(s, d, order, event).value;
            && e.state == Settle(d.state, x, event, s.execution.tolerance)
            && !e.state.failed
            && (s.execution.model == Microstructure ==>
                  e.budget == Some(Available(s, d, event) - x.fills[0].quantity))
  {
    hide BrokerExecute, Available, ApplyFill;
  }

  function Wants(due: seq<Pending>): real
  {
    if due == [] then 0.0 else Wants(due[..|due| - 1]) + due[|due| - 1].order.Unfilled()
  }

  lemma {:induction false} WantsPositive(due: seq<Pending>)
    requires Ready(due)
    ensures Wants(due) >= 0.0
  {
    if due != [] {
      WantsPositive(due[..|due| - 1]);
    }
  }

  /** The drain's starting point: the due orders taken out, the budget not yet opened. */
  ghost predicate Opening(d: Drain) { Wired(d.state) && d.budget == None && !d.state.failed }

  /**
    In MICROSTRUCTURE mode, after the first orders of the queue: what is left is the budget less what they wanted,
    and together they were filled exactly the smaller of the two.
   */
  lemma {:induction false} DrainShares(s: Setup, d: Drain, due: seq<Pending>, event: MarketEvent)
    requires s.Valid() && s.execution.model == Microstructure && event.volume >= 0
    requires Opening(d) && Queued(due, |d.state.orders|) && Ready(due)
    ensures var e := DrainAll(s, d, due, event);
            && !e.state.failed
            && Available(s, e, event) == MaxReal(0.0, Budget(s, event) - Wants(due))
            && e.state.filled - d.state.filled == MinReal(Budget(s, event), Wants(due))
  {
    hide DrainOne, Advances, ApplyFill, BrokerExecute, Budget, Available, Turn;
    BudgetSign(s, d, event);
    WantsPositive(due);
    if due != [] {
      var front, order := due[..|due| - 1], due[|due| - 1].order;
      DrainShares(s, d, front, event);
      WantsPositive(front);
      DrainOneGrants(s, DrainAll(s, d, front, event), order, event);
    }
  }

  lemma BudgetSign(s: Setup, d: Drain, event: MarketEvent)
    requires s.Valid() && event.volume >= 0 && d.budget == None
    ensures Budget(s, event) >= 0.0 && Available(s, d, event) == Budget(s, event)
  {
  }

  /**
    Each due order in queue order receives the smaller of what it still wants and what the orders before it left;
    it is left unfinished only when the budget is exhausted.
   */
  lemma EachTakesItsShare(s: Setup, d: Drain, due: seq<Pending>, event: MarketEvent, k: nat)
    requires s.Valid() && s.execution.model == Microstructure && event.volume >= 0
    requires Opening(d) && Queued(due, |d.state.orders|) && Ready(due) && k < |due|
    ensures var before, after := DrainAll(s, d, due[..k], event), DrainAll(s, d, due[..k + 1], event);
            var left := MaxReal(0.0, Budget(s, event) - Wants(due[..k]));
            var share := MinReal(due[k].order.Unfilled(), left);
            && after.state.filled - before.state.filled == share
            && (share == 0.0 <==> left == 0.0)
            && (share < due[k].order.Unfilled() ==> Available(s, after, event) == 0.0)
            && (share == 0.0 ==> after.state == Defer(before.state, due[k].order, event))
            && (share > 0.0 ==> TurnConfig(s, before, event).Valid())
  {
    hide DrainOne, Advances, ApplyFill, BrokerExecute, Budget, Available, Turn, TurnConfig;
    assert due[..k + 1][..k] == due[..k];
    BudgetSign(s, d, event);
    DrainShares(s, d, due[..k], event);
    DrainShares(s, d, due[..k + 1], event);
    WantsPositive(due[..k]);
    var before := DrainAll(s, d, due[..k], event);
    DrainOneGrants(s, before, due[k].order, event);
    if Granted(s, before, due[k].order, event) > 0.0 {
      TurnFills(s, before, due[k].order, event);
    }
  }

  // ----- Short drains -----

  lemma DueAppends(queue: seq<Pending>, p: Pending, sequence: nat)
    ensures Due(queue + [p], sequence) == Due(queue, sequence) + if p.due <= sequence then [p] else []
    ensures Waiting(queue + [p], sequence) == Waiting(queue, sequence) + if p.due <= sequence then [] else [p]
  {
    assert (queue + [p])[..|queue|] == queue;
  }

  lemma EmptySplits(sequence: nat)
    ensures Due([], sequence) == [] && Waiting([], sequence) == []
  {
  }

  /** An order at the head that is due, or none, before others that are not. */
  lemma {:induction false} HeadSplits(queue: seq<Pending>, sequence: nat)
    requires forall i :: 0 < i < |queue| ==> queue[i].due > sequence
    ensures var first := queue != [] && queue[0].due <= sequence;
            && Due(queue, sequence) == (if first then [queue[0]] else [])
            && Waiting(queue, sequence) == (if first then queue[1..] else queue)
  {
    hide Due, Waiting;
    EmptySplits(sequence);
    if queue != [] {
      var front, last := queue[..|queue| - 1], queue[|queue| - 1];
      HeadSplits(front, sequence);
      DueAppends(front, last, sequence);
      assert queue == front + [last];
    }
  }

  lemma NothingDue(s: Setup, st: State, event: MarketEvent)
    requires Wired(st) && forall i :: 0 <= i < |st.pending| ==> st.pending[i].due > event.sequence
    ensures DrainDue(s, st, event) == st
  {
    hide Due, Waiting, DrainOne;
    HeadSplits(st.pending, event.sequence);
  }

  /** Only the head of the queue is due: the drain is its turn. */
  lemma HeadDue(s: Setup, st: State, event: MarketEvent)
    requires Wired(st) && st.pending != [] && st.pending[0].due <= event.sequence
    requires forall i :: 0 < i < |st.pending| ==> st.pending[i].due > event.sequence
    ensures DrainDue(s, st, event)
            == DrainOne(s, Drain(st.(pending := st.pending[1..]), None), st.pending[0].order, event).state
  {
    hide DrainOne, Due, Waiting;
    HeadSplits(st.pending, event.sequence);
    SplittingKeepsQueued(st.pending, event.sequence, |st.orders|);
    var p, start := st.pending[0], Drain(st.(pending := st.pending[1..]), None);
    assert [p][..|[p]| - 1] == [];
    assert DrainAll(s, start, [p], event) == DrainOne(s, DrainAll(s, start, [], event), p.order, event);
  }
}
