/** One paper session as a state machine over bars: drain due orders, mark, signal, check, execute or queue, mark, observe. */
module Replay {
  import opened Common
  import opened Execution
  import opened Portfolio
  import opened Decisions

  datatype Bar = Bar(timestamp: int, open: real, high: real, low: real, close: real, volume: int)

  datatype Setup = Setup(symbol: string, cash: real, windows: Windows, risk: RiskConfig, execution: Config)
  {
    /** The part of the checks before the first bar that the laws of a session rely on. */
    predicate Valid() {
      && windows.Valid() && execution.Valid() && execution.tolerance >= 0.0
      && cash > 0.0 && risk.commissionBps >= 0.0 && risk.slippageBps == execution.slippageBps
    }

    /** Everything the request schema, the strategy registry and the configuration objects check before the first bar. */
    predicate Legal() {
      && Valid() && symbol != "" && execution.tolerance == 0.000000001
      && 2 <= windows.fast < windows.slow && 3 <= windows.slow && 0.0 < windows.exposure <= 1.0
      && risk.maxPosition > 0.0 && risk.maxOrderValue > 0.0 && risk.maxGrossExposure > 0.0
    }
  }

  /** What ingestion checks of stored bars: positive consistent prices, no negative volume, one bar per time. */
  predicate LegalBars(bars: seq<Bar>) {
    && bars != []
    && (forall i :: 0 <= i < |bars| ==>
          && 0.0 < bars[i].low <= bars[i].open <= bars[i].high
          && bars[i].low <= bars[i].close <= bars[i].high && bars[i].volume >= 0)
    && forall i, j :: 0 <= i < j < |bars| ==> bars[i].timestamp < bars[j].timestamp
  }

  function ClosesOf(bars: seq<Bar>): (closes: seq<real>)
    ensures |closes| == |bars|
  {
    seq(|bars|, i requires 0 <= i < |bars| => bars[i].close)
  }

  /** An order waiting for the bar whose sequence number reaches `due`. */
  datatype Pending = Pending(due: int, order: Order)

  /** A fill with the sequence number of the bar that made it. */
  datatype FillRow = FillRow(bar: nat, fill: Fill)

  /**
    Everything a session keeps between bars: `orders` is the persisted order table (an order's id is its index),
    `submitted` the bar at which each was created, `fills` the persisted fill table.
   */
  datatype State = State(
    book: Book, history: seq<real>, seen: set<OrderKey>, pending: seq<Pending>,
    orders: seq<Order>, submitted: seq<nat>, fills: seq<FillRow>, signals: seq<Signal>,
    requested: real, filled: real, partials: nat, failed: bool)

  function Begin(s: Setup): State {
    State(Open(s.cash), [], {}, [], [], [], [], [], 0.0, 0.0, 0, false)
  }

  /** The stream's event for a bar: no observed quote, and sequence numbers counting from one. */
  function EventOf(s: Setup, bar: Bar, sequence: nat): MarketEvent {
    MarketEvent(bar.timestamp, s.symbol, bar.open, bar.high, bar.low, bar.close, bar.volume, sequence,
                None, None, None)
  }

  function FillsOf(rows: seq<FillRow>): seq<Fill>
    ensures |FillsOf(rows)| == |rows|
  {
    seq(|rows|, i requires 0 <= i < |rows| => rows[i].fill)
  }

  /** Every queued order is a row of the order table. */
  predicate Wired(st: State) {
    |st.submitted| == |st.orders| && Queued(st.pending, |st.orders|)
  }

  predicate Queued(queue: seq<Pending>, rows: nat) {
    forall i :: 0 <= i < |queue| ==> queue[i].order.id < rows && queue[i].order.filled >= 0.0
  }

  /** Persist the order, apply its fill, and queue it for the next bar when something is left. */
  function Settle(st: State, x: Execution, event: MarketEvent, tolerance: real): (t: State)
    requires Wired(st) && x.order.id < |st.orders| && x.order.filled >= 0.0
    ensures Wired(t) && |t.orders| == |st.orders| && t.failed == st.failed
  {
    var t := st.(orders := st.orders[x.order.id := x.order]);
    var u := if x.fills == [] then t
             else t.(book := ApplyFill(t.book, x.fills[0], tolerance),
                     fills := t.fills + [FillRow(event.sequence, x.fills[0])],
                     filled := t.filled + x.fills[0].quantity);
    if x.order.status == PartiallyFilled then
      u.(partials := u.partials + 1, pending := u.pending + [Pending(event.sequence + 1, x.order)])
    else u
  }

  // ----- Draining the due orders under the bar's liquidity budget -----

  function Due(queue: seq<Pending>, sequence: nat): seq<Pending>
  {
    if queue == [] then []
    else
      var last := queue[|queue| - 1];
      Due(queue[..|queue| - 1], sequence) + if last.due <= sequence then [last] else []
  }

  function Waiting(queue: seq<Pending>, sequence: nat): seq<Pending>
  {
    if queue == [] then []
    else
      var last := queue[|queue| - 1];
      Waiting(queue[..|queue| - 1], sequence) + if last.due <= sequence then [] else [last]
  }

  lemma {:induction false} SplittingKeepsQueued(queue: seq<Pending>, sequence: nat, rows: nat)
    requires Queued(queue, rows)
    ensures Queued(Due(queue, sequence), rows) && Queued(Waiting(queue, sequence), rows)
  {
    if queue != [] {
      SplittingKeepsQueued(queue[..|queue| - 1], sequence, rows);
    }
  }

  datatype Drain = Drain(state: State, budget: Option<real>)

  /** What is left of the bar's liquidity when an order's turn comes. */
  function Available(s: Setup, d: Drain, event: MarketEvent): real {
    d.budget.GetOr(event.volume as real * s.execution.maxParticipation)
  }

  /** The configuration one order executes under: the rest of the budget as its participation rate. */
  function OwnConfig(c: Config, available: real, volume: int): Config
    requires volume != 0
  {
    c.(maxParticipation := available / volume as real)
  }

  function Defer(st: State, order: Order, event: MarketEvent): State {
    st.(pending := st.pending + [Pending(event.sequence + 1, order)])
  }

  function DrainOne(s: Setup, d: Drain, order: Order, event: MarketEvent): (e: Drain)
    requires Wired(d.state) && order.filled >= 0.0 && order.id < |d.state.orders|
    ensures Wired(e.state) && |e.state.orders| == |d.state.orders|
  {
    var micro := s.execution.model == Microstructure;
    var available := Available(s, d, event);
    if d.state.failed then d
    else if micro && available <= 0.0 then Drain(Defer(d.state, order, event), Some(available))
    else if micro && (event.volume == 0 || !OwnConfig(s.execution, available, event.volume).Valid()) then
      Drain(d.state.(failed := true), Some(available))
    else
      var own := if micro then OwnConfig(s.execution, available, event.volume) else s.execution;
      match BrokerExecute(order, event, own, s.risk.commissionBps)
      case Err(_) => Drain(d.state.(failed := true), d.budget)
      case Ok(x) =>
        Drain(Settle(d.state, x, event, s.execution.tolerance),
              if !micro then d.budget
              else Some(if x.fills == [] then available else available - x.fills[0].quantity))
  }

  function DrainAll(s: Setup, d: Drain, due: seq<Pending>, event: MarketEvent): (e: Drain)
    requires Wired(d.state) && Queued(due, |d.state.orders|)
    ensures Wired(e.state) && |e.state.orders| == |d.state.orders|
  {
    if due == [] then d
    else DrainOne(s, DrainAll(s, d, due[..|due| - 1], event), due[|due| - 1].order, event)
  }

  function DrainDue(s: Setup, st: State, event: MarketEvent): (t: State)
    requires Wired(st)
    ensures Wired(t)
  {
    SplittingKeepsQueued(st.pending, event.sequence, |st.orders|);
    var start := Drain(st.(pending := Waiting(st.pending, event.sequence)), None);
    DrainAll(s, start, Due(st.pending, event.sequence), event).state
  }

  // ----- Signal, risk check, and the new order -----

  function NewOrder(st: State, s: Setup, signal: Signal): Order {
    Order(|st.orders|, s.symbol, if signal.direction == BuySignal then Buy else Sell, signal.quantity,
          signal.timestamp, Created, None, 0.0, 0.0)
  }

  /** An accepted order is queued when there is latency, and executed at once, off the bar's budget, when there is none. */
  function Submit(s: Setup, st: State, order: Order, event: MarketEvent): (t: State)
    requires Wired(st) && order.id < |st.orders| && order.filled >= 0.0
    ensures Wired(t)
  {
    var u := st.(requested := st.requested + order.quantity);
    if s.execution.latency != 0 then
      u.(pending := u.pending + [Pending(event.sequence + s.execution.latency, order)])
    else
      match BrokerExecute(order, event, s.execution, s.risk.commissionBps)
      case Err(_) => u.(failed := true)
      case Ok(x) => Settle(u, x, event, s.execution.tolerance)
  }

  ghost function Act(s: Setup, st: State, signal: Signal, event: MarketEvent): (t: State)
    requires Wired(st)
    ensures Wired(t)
  {
    if signal.direction == Hold then st
    else
      var order := Check(NewOrder(st, s, signal), st.book, event.open, st.seen, s.risk, s.execution.tolerance);
      var u := st.(orders := st.orders + [order], submitted := st.submitted + [event.sequence]);
      if order.status == Rejected then u
      else Submit(s, u.(seen := u.seen + {KeyOf(order)}), order, event)
  }

  ghost function Trade(s: Setup, st: State, event: MarketEvent): (t: State)
    requires s.Valid() && Wired(st)
    ensures Wired(t)
  {
    var marked := st.(book := MarkPrice(st.book, event.symbol, event.open));
    var signal := OnMarket(s.windows, marked.history, event, marked.book, s.execution.tolerance);
    Act(s, marked.(signals := marked.signals + [signal]), signal, event)
  }

  /** Everything a bar does before its close is looked at. */
  ghost function BeforeClose(s: Setup, st: State, event: MarketEvent): (t: State)
    requires s.Valid() && Wired(st)
    ensures Wired(t)
  {
    var drained := DrainDue(s, st, event);
    if drained.failed then drained else Trade(s, drained, event)
  }

  function AfterClose(st: State, event: MarketEvent): State {
    st.(book := MarkPrice(st.book, event.symbol, event.close), history := st.history + [event.close])
  }

  ghost function Step(s: Setup, st: State, bar: Bar, sequence: nat): (t: State)
    requires s.Valid() && Wired(st)
    ensures Wired(t)
  {
    if st.failed then st
    else
      var event := EventOf(s, bar, sequence);
      var traded := BeforeClose(s, st, event);
      if traded.failed then traded else AfterClose(traded, event)
  }

  /** The session after a sequence of bars; the first bar has sequence number one. */
  ghost function Run(s: Setup, bars: seq<Bar>): (st: State)
    requires s.Valid()
    ensures Wired(st)
  {
    if bars == [] then Begin(s) else Step(s, Run(s, bars[..|bars| - 1]), bars[|bars| - 1], |bars|)
  }
}
