/** Market events, orders and fills, the three quote-based execution models, and the broker that adds fees. */
module Execution {
  import opened Common

  datatype Side = Buy | Sell

  datatype Status = Created | Submitted | PartiallyFilled | Filled | Rejected

  datatype Reason =
    | InvalidQuantity | OrderValueExceeded | DuplicateOrder | InsufficientPosition
    | PositionSizeExceeded | InsufficientCash | ExposureExceeded

  datatype MarketEvent = MarketEvent(
    timestamp: int, symbol: string, open: real, high: real, low: real, close: real, volume: int, sequence: nat,
    bid: Option<real>, ask: Option<real>, lastPrice: Option<real>)

  datatype Order = Order(
    id: nat, symbol: string, side: Side, quantity: real, createdAt: int, status: Status, reason: Option<Reason>,
    filled: real, averagePrice: real)
  {
    predicate Executable() { status == Submitted || status == PartiallyFilled }

    function Unfilled(): real { quantity - filled }
  }

  datatype Fill = Fill(
    orderId: nat, symbol: string, side: Side, quantity: real, price: real, gross: real, fees: real,
    slippageCost: real, timestamp: int, spreadCost: real, impactCost: real)

  datatype Model = Ideal | BasicSlippage | Microstructure

  datatype SpreadModel = ObservedOrFixed | FixedBps

  /** `root` stands for the host's square root; `tolerance` for the literal 1e-9 of the order status test. */
  datatype Config = Config(
    model: Model, spreadModel: SpreadModel, fixedSpreadBps: real, slippageBps: real, maxParticipation: real,
    impactBps: real, latency: int, tolerance: real, root: real -> real)
  {
    /** The checks a configuration runs on itself when it is built. */
    predicate Valid() {
      && fixedSpreadBps >= 0.0 && slippageBps >= 0.0 && impactBps >= 0.0
      && 0.0 < maxParticipation <= 1.0
      && latency >= 0
    }
  }

  datatype MarketState = MarketState(bid: real, ask: real, mid: real, volume: int, timestamp: int)

  datatype Execution = Execution(order: Order, fills: seq<Fill>)

  datatype Failure = NotExecutable | InvalidConfig

  function MarketStateOf(event: MarketEvent, c: Config): MarketState {
    var last := event.lastPrice.GetOr(event.open);
    if c.spreadModel == ObservedOrFixed && event.bid.Some? && event.ask.Some?
       && event.bid.value > 0.0 && event.ask.value >= event.bid.value then
      MarketState(event.bid.value, event.ask.value, (event.bid.value + event.ask.value) / 2.0,
                  event.volume, event.timestamp)
    else
      var half := last * c.fixedSpreadBps / 20000.0;
      MarketState(last - half, last + half, last, event.volume, event.timestamp)
  }

  /** How much of the order this model fills on this bar. */
  function FillQuantity(order: Order, m: MarketState, c: Config): real {
    match c.model
    case Microstructure => MinReal(order.Unfilled(), MaxReal(0.0, m.volume as real * c.maxParticipation))
    case _ => order.Unfilled()
  }

  function Reference(side: Side, m: MarketState, c: Config): real {
    if c.model == Ideal then m.mid else if side == Buy then m.ask else m.bid
  }

  function Impact(quantity: real, m: MarketState, c: Config): real {
    if c.model != Microstructure then 0.0
    else m.mid * c.impactBps / 10000.0 * c.root(quantity / MaxReal(m.volume as real, 1.0))
  }

  function Price(side: Side, quantity: real, m: MarketState, c: Config): real {
    var reference := Reference(side, m, c);
    var cost := reference * c.slippageBps / 10000.0 + Impact(quantity, m, c);
    if side == Buy then reference + cost else reference - cost
  }

  function ExecuteOrder(order: Order, m: MarketState, c: Config): (r: Result<Execution, Failure>)
    requires order.filled >= 0.0
    ensures r.Ok? ==> r.value.order.id == order.id && r.value.order.filled >= 0.0
  {
    if !order.Executable() then Err(NotExecutable)
    else
      var quantity := FillQuantity(order, m, c);
      if quantity <= 0.0 || order.Unfilled() <= 0.0 then Ok(Execution(order, []))
      else
        var price := Price(order.side, quantity, m, c);
        var total := order.filled + quantity;
        var updated := order.(
          filled := total,
          averagePrice := (order.averagePrice * order.filled + price * quantity) / total,
          status := if total + c.tolerance >= order.quantity then Filled else PartiallyFilled);
        var fill := Fill(order.id, order.symbol, order.side, quantity, price, price * quantity, 0.0,
                         AbsReal(price - m.mid) * quantity, m.timestamp,
                         AbsReal(Reference(order.side, m, c) - m.mid) * quantity,
                         Impact(quantity, m, c) * quantity);
        Ok(Execution(updated, [fill]))
  }

  /** The broker: the execution model's fills, with a commission on their gross value. */
  function BrokerExecute(order: Order, event: MarketEvent, c: Config, commissionBps: real)
    : (r: Result<Execution, Failure>)
    requires order.filled >= 0.0
    ensures r.Ok? ==> r.value.order.id == order.id && r.value.order.filled >= 0.0
  {
    match ExecuteOrder(order, MarketStateOf(event, c), c)
    case Err(e) => Err(e)
    case Ok(x) => Ok(x.(fills := seq(|x.fills|, i requires 0 <= i < |x.fills| =>
                                       x.fills[i].(fees := x.fills[i].gross * (commissionBps / 10000.0)))))
  }

  /** What an execution may do to one order. */
  ghost predicate Advances(before: Order, x: Execution, tolerance: real) {
    var after := x.order;
    && |x.fills| <= 1
    && (x.fills == [] ==> after == before)
    && (x.fills != [] ==>
          var f := x.fills[0];
          && f.orderId == before.id && f.side == before.side && f.symbol == before.symbol
          && 0.0 < f.quantity <= before.Unfilled()
          && f.gross == f.price * f.quantity
          && after == before.(filled := before.filled + f.quantity, averagePrice := after.averagePrice,
                              status := after.status)
          && after.averagePrice * after.filled == before.averagePrice * before.filled + f.price * f.quantity
          && after.status == if after.Unfilled() <= tolerance then Filled else PartiallyFilled)
  }

  /** Only executable orders execute; one call makes at most one fill, never past the order's quantity. */
  lemma BrokerAdvances(order: Order, event: MarketEvent, c: Config, commissionBps: real)
    requires order.filled >= 0.0
    ensures var r := BrokerExecute(order, event, c, commissionBps);
            && (r.Ok? <==> order.Executable())
            && (r.Ok? ==> Advances(order, r.value, c.tolerance))
  {
    hide Price, Impact, Reference, MarketStateOf;
    var m := MarketStateOf(event, c);
    if order.Executable() {
      var x := ExecuteOrder(order, m, c).value;
      if x.fills != [] {
        var q, price := FillQuantity(order, m, c), Price(order.side, FillQuantity(order, m, c), m, c);
        WeightedMean(order.averagePrice * order.filled + price * q, order.filled + q);
      }
    }
  }

  /**
    Costs are never in the trader's favour: a buy pays at least its reference price and that at least the mid, a sale
    gets at most; only IDEAL refers to the mid itself, and a fill's recorded slippage is its whole distance from it.
   */
  lemma PricesAreAdverse(order: Order, event: MarketEvent, c: Config, commissionBps: real)
    requires c.Valid() && order.filled >= 0.0 && event.lastPrice.GetOr(event.open) >= 0.0
    requires forall x :: c.root(x) >= 0.0
    ensures var m, r := MarketStateOf(event, c), BrokerExecute(order, event, c, commissionBps);
            && 0.0 <= m.mid && m.bid <= m.mid <= m.ask
            && (r.Ok? && r.value.fills != [] ==>
                  var f := r.value.fills[0];
                  && (f.side == Buy ==> f.price >= (if c.model == Ideal then m.mid else m.ask))
                  && (f.side == Sell && m.bid >= 0.0 ==> f.price <= (if c.model == Ideal then m.mid else m.bid))
                  && (f.side == Buy || m.bid >= 0.0 ==> 0.0 <= f.spreadCost <= f.slippageCost)
                  && f.fees == f.gross * (commissionBps / 10000.0))
  {
    hide Impact, Price, MarketStateOf, FillQuantity;
    QuotesSurroundMid(event, c);
    var m := MarketStateOf(event, c);
    var q := FillQuantity(order, m, c);
    if q > 0.0 && (order.side == Buy || m.bid >= 0.0) {
      PriceIsAdverse(order.side, q, m, c);
      DistanceScales(Reference(order.side, m, c) - m.mid, Price(order.side, q, m, c) - m.mid, q);
    }
  }

  lemma QuotesSurroundMid(event: MarketEvent, c: Config)
    requires c.Valid() && event.lastPrice.GetOr(event.open) >= 0.0
    ensures var m := MarketStateOf(event, c); 0.0 <= m.mid && m.bid <= m.mid <= m.ask
  {
    assert event.lastPrice.GetOr(event.open) * c.fixedSpreadBps >= 0.0;
  }

  lemma PriceIsAdverse(side: Side, quantity: real, m: MarketState, c: Config)
    requires c.Valid() && 0.0 <= m.mid && m.bid <= m.mid <= m.ask && quantity > 0.0
    requires (side == Buy || m.bid >= 0.0) && forall x :: c.root(x) >= 0.0
    ensures side == Buy ==> Price(side, quantity, m, c) >= Reference(side, m, c) >= m.mid
    ensures side == Sell ==> Price(side, quantity, m, c) <= Reference(side, m, c) <= m.mid
  {
    ImpactIsNonNegative(quantity, m, c);
    hide Impact;
    assert Reference(side, m, c) * c.slippageBps >= 0.0;
  }

  lemma ImpactIsNonNegative(quantity: real, m: MarketState, c: Config)
    requires c.Valid() && 0.0 <= m.mid && forall x :: c.root(x) >= 0.0
    ensures Impact(quantity, m, c) >= 0.0
  {
    assert m.mid * c.impactBps >= 0.0;
    var scale := m.mid * c.impactBps / 10000.0;
    assert scale * c.root(quantity / MaxReal(m.volume as real, 1.0)) >= 0.0;
  }

  lemma DistanceScales(a: real, b: real, quantity: real)
    requires quantity > 0.0 && (0.0 <= a <= b || b <= a <= 0.0)
    ensures 0.0 <= AbsReal(a) * quantity <= AbsReal(b) * quantity
  {
  }

  lemma WeightedMean(x: real, total: real)
    requires total > 0.0
    ensures x / total * total == x
  {
  }
}
