/** The two decision makers of a paper session: the moving-average signal and the pre-trade risk check. */
module Decisions {
  import opened Common
  import opened Execution
  import opened Portfolio

  datatype Direction = BuySignal | ExitSignal | Hold

  datatype Signal = Signal(direction: Direction, quantity: real, timestamp: int)

  datatype Windows = Windows(fast: nat, slow: nat, exposure: real)
  {
    predicate Valid() { 0 < fast < slow }
  }

  /** The mean of the last `window` closes. */
  function TailMean(closes: seq<real>, window: nat): real
    requires 0 < window <= |closes|
  {
    Mean(closes[|closes| - window..])
  }

  /** The signal at a bar: it sees the bar's open and the closes of earlier bars only. */
  ghost function OnMarket(w: Windows, history: seq<real>, event: MarketEvent, book: Book, tolerance: real): Signal
    requires w.Valid()
  {
    if |history| < w.slow then Signal(Hold, 0.0, event.timestamp)
    else
      var fast, slow := TailMean(history, w.fast), TailMean(history, w.slow);
      var held := Held(book, event.symbol);
      if fast > slow && held <= tolerance then
        Signal(BuySignal, if event.open != 0.0 then Equity(book) * w.exposure / event.open else 0.0, event.timestamp)
      else if fast <= slow && held > 0.0 then Signal(ExitSignal, held, event.timestamp)
      else Signal(Hold, 0.0, event.timestamp)
  }

  datatype RiskConfig = RiskConfig(maxPosition: real, maxOrderValue: real, maxGrossExposure: real,
                                   commissionBps: real, slippageBps: real)

  /** What makes two orders duplicates of each other. */
  datatype OrderKey = OrderKey(symbol: string, createdAt: int, side: Side, quantity: real)

  function KeyOf(o: Order): OrderKey { OrderKey(o.symbol, o.createdAt, o.side, o.quantity) }

  function CashRequired(o: Order, price: real, c: RiskConfig): real {
    if o.side != Buy then 0.0
    else o.quantity * price * (1.0 + c.slippageBps / 10000.0) * (1.0 + c.commissionBps / 10000.0)
  }

  /** Replacing the held quantity by the projected one takes gross exposure over its share of equity. */
  predicate OverExposed(exposure: real, equity: real, held: real, projected: real, price: real, c: RiskConfig) {
    exposure - AbsReal(held * price) + AbsReal(projected * price) > equity * c.maxGrossExposure
  }

  ghost function Rejection(o: Order, b: Book, price: real, seen: set<OrderKey>, c: RiskConfig, tolerance: real)
    : Option<Reason>
  {
    var held := Held(b, o.symbol);
    var projected := if o.side == Buy then held + o.quantity else held - o.quantity;
    if o.quantity <= 0.0 then Some(InvalidQuantity)
    else if o.quantity * price > c.maxOrderValue then Some(OrderValueExceeded)
    else if KeyOf(o) in seen then Some(DuplicateOrder)
    else if projected < -tolerance then Some(InsufficientPosition)
    else if AbsReal(projected) > c.maxPosition then Some(PositionSizeExceeded)
    else if o.side == Buy && CashRequired(o, price, c) > b.cash then Some(InsufficientCash)
    else if OverExposed(Exposure(b), Equity(b), held, projected, price, c) then
      Some(ExposureExceeded)
    else None
  }

  ghost function Check(o: Order, b: Book, price: real, seen: set<OrderKey>, c: RiskConfig, tolerance: real): Order {
    var reason := Rejection(o, b, price, seen, c, tolerance);
    o.(status := if reason.Some? then Rejected else Submitted, reason := reason, filled := 0.0, averagePrice := 0.0)
  }
}
