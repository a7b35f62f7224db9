/** What a trading signal asks for, and which limit an order breaks, said about the portfolio it would leave. */
module RiskLimits {
  import opened Common
  import opened Execution
  import opened Portfolio
  import opened PortfolioFlows
  import opened Decisions

  // ----- The signal -----

  /** The sum of the last closes of a window. */
  function LastSum(closes: seq<real>, window: nat): real
    requires window <= |closes|
  {
    Sum(closes[|closes| - window..])
  }

  /** The fast mean is above the slow one: the sums, weighed by each other's window. */
  predicate FastAbove(w: Windows, closes: seq<real>)
    requires w.Valid() && w.slow <= |closes|
  {
    LastSum(closes, w.fast) * w.slow as real > LastSum(closes, w.slow) * w.fast as real
  }

  lemma MeansCompare(a: real, m: real, b: real, n: real)
    requires m > 0.0 && n > 0.0
    ensures a / m > b / n <==> a * n > b * m
  {
    var x, y := a / m, b / n;
    assert x * m == a && y * n == b;
    var d := x - y;
    assert a * n - b * m == d * (m * n);
    SignOfProduct(d, m * n);
  }

  lemma SignOfProduct(d: real, k: real)
    requires k > 0.0
    ensures d * k > 0.0 <==> d > 0.0
  {
    if d <= 0.0 { NotPositive(d, k); }
  }

  lemma NotPositive(d: real, k: real)
    requires d <= 0.0 && k > 0.0
    ensures d * k <= 0.0
  {
  }

  /**
    Warming up holds. A flat portfolio buys exactly when the fast mean is above, for the target share of equity at the
    open; a position is left, whole, exactly when it is not above; anything else holds.
   */
  lemma SignalDecides(w: Windows, closes: seq<real>, event: MarketEvent, b: Book, tolerance: real)
    requires w.Valid()
    ensures var signal, held := OnMarket(w, closes, event, b, tolerance), Held(b, event.symbol);
            && signal.timestamp == event.timestamp
            && (signal.direction == BuySignal <==> |closes| >= w.slow && FastAbove(w, closes) && held <= tolerance)
            && (signal.direction == ExitSignal <==> |closes| >= w.slow && !FastAbove(w, closes) && held > 0.0)
            && (signal.direction == BuySignal && event.open != 0.0 ==>
                  signal.quantity * event.open == w.exposure * Equity(b))
            && (signal.direction == BuySignal && event.open == 0.0 ==> signal.quantity == 0.0)
            && (signal.direction == ExitSignal ==> signal.quantity == held)
            && (signal.direction == Hold ==> signal.quantity == 0.0)
  {
    hide Equity, Held, Sum;
    if |closes| >= w.slow {
      MeansCompare(LastSum(closes, w.fast), w.fast as real, LastSum(closes, w.slow), w.slow as real);
      if event.open != 0.0 {
        Divided(Equity(b) * w.exposure, event.open);
      }
    }
  }

  lemma Divided(x: real, y: real)
    requires y != 0.0
    ensures x / y * y == x
  {
  }

  // ----- The seven limits -----

  /** What the order would leave held. */
  function Projected(o: Order, b: Book): real {
    match o.side
    case Buy => Held(b, o.symbol) + o.quantity
    case Sell => Held(b, o.symbol) - o.quantity
  }

  /** The portfolio with that quantity of the order's symbol. */
  function WithProjected(o: Order, b: Book): Book {
    b.(positions := b.positions[o.symbol := Position(Projected(o, b), 0.0)])
  }

  /** What the purchase costs when it fills at the price, made worse by slippage and commission. */
  function WorstCost(o: Order, price: real, c: RiskConfig): real {
    price * o.quantity * (1.0 + c.slippageBps / 10000.0) * (1.0 + c.commissionBps / 10000.0)
  }

  /** The order breaks the limit that the reason names. */
  ghost predicate Breaks(reason: Reason, o: Order, b: Book, price: real, seen: set<OrderKey>, c: RiskConfig,
                         tolerance: real)
  {
    match reason
    case InvalidQuantity => !(o.quantity > 0.0)
    case OrderValueExceeded => price * o.quantity > c.maxOrderValue
    case DuplicateOrder => OrderKey(o.symbol, o.createdAt, o.side, o.quantity) in seen
    case InsufficientPosition => Projected(o, b) + tolerance < 0.0
    case PositionSizeExceeded => Projected(o, b) > c.maxPosition || -Projected(o, b) > c.maxPosition
    case InsufficientCash => o.side == Buy && b.cash < WorstCost(o, price, c)
    case ExposureExceeded => Exposure(WithProjected(o, b)) > c.maxGrossExposure * Equity(b)
  }

  /** The order in which limits are looked at. */
  function Place(reason: Reason): nat {
    match reason
    case InvalidQuantity => 0
    case OrderValueExceeded => 1
    case DuplicateOrder => 2
    case InsufficientPosition => 3
    case PositionSizeExceeded => 4
    case InsufficientCash => 5
    case ExposureExceeded => 6
  }

  /** Replacing the order's position in the sum of exposures is the exposure of the portfolio it would leave. */
  lemma ProjectedExposure(o: Order, b: Book, price: real, cap: RiskConfig)
    requires o.symbol in b.last && b.last[o.symbol] == price
    ensures var held := Held(b, o.symbol);
            OverExposed(Exposure(b), Equity(b), held, Projected(o, b), price, cap) <==>
            Exposure(WithProjected(o, b)) > cap.maxGrossExposure * Equity(b)
  {
    hide Total, Values, Exposures, MarkOf, PositionOf, MarkPrice, Equity, Exposure, OverExposed, Projected,
         WithProjected;
    var after := WithProjected(o, b);
    SameMark(o, b, price);
    MarkedValue(b, o.symbol, price);
    MarkedValue(after, o.symbol, price);
    SameOthers(o, b);
    OverExposedIs(Exposure(b), Equity(b), Held(b, o.symbol), Projected(o, b), price, cap, Exposure(after));
  }

  lemma OverExposedIs(exposure: real, equity: real, held: real, projected: real, price: real, c: RiskConfig, after: real)
    requires after == exposure - AbsReal(held * price) + AbsReal(projected * price)
    ensures OverExposed(exposure, equity, held, projected, price, c) <==> after > c.maxGrossExposure * equity
  {
  }

  lemma SameMark(o: Order, b: Book, price: real)
    requires o.symbol in b.last && b.last[o.symbol] == price
    ensures MarkPrice(b, o.symbol, price) == b && MarkPrice(WithProjected(o, b), o.symbol, price) == WithProjected(o, b)
    ensures Held(WithProjected(o, b), o.symbol) == Projected(o, b)
  {
    assert b.last[o.symbol := price] == b.last;
  }

  lemma SameOthers(o: Order, b: Book)
    ensures Without(WithProjected(o, b), o.symbol) == Without(b, o.symbol)
  {
    assert b.positions[o.symbol := Position(Projected(o, b), 0.0)] - {o.symbol} == b.positions - {o.symbol};
  }

  /** An order is turned down exactly when it breaks a limit, for the first one it breaks. */
  lemma FirstBrokenLimit(o: Order, b: Book, price: real, seen: set<OrderKey>, c: RiskConfig, tolerance: real)
    requires o.symbol in b.last && b.last[o.symbol] == price
    ensures var r := Rejection(o, b, price, seen, c, tolerance);
            && (r == None <==> forall reason: Reason :: !Breaks(reason, o, b, price, seen, c, tolerance))
            && (r.Some? ==>
                  && Breaks(r.value, o, b, price, seen, c, tolerance)
                  && forall reason: Reason :: Place(reason) < Place(r.value) ==>
                       !Breaks(reason, o, b, price, seen, c, tolerance))
  {
    hide Breaks, Rejection;
    LimitsInTurn(o, b, price, seen, c, tolerance);
    forall reason: Reason | Breaks(reason, o, b, price, seen, c, tolerance)
      ensures Rejection(o, b, price, seen, c, tolerance).Some?
    {
      assert reason == InvalidQuantity || reason == OrderValueExceeded || reason == DuplicateOrder
             || reason == InsufficientPosition || reason == PositionSizeExceeded || reason == InsufficientCash
             || reason == ExposureExceeded;
    }
  }

  /** The check asks for one limit after the other. */
  lemma LimitsInTurn(o: Order, b: Book, price: real, seen: set<OrderKey>, c: RiskConfig, tolerance: real)
    requires o.symbol in b.last && b.last[o.symbol] == price
    ensures Rejection(o, b, price, seen, c, tolerance)
            == if Breaks(InvalidQuantity, o, b, price, seen, c, tolerance) then Some(InvalidQuantity)
               else if Breaks(OrderValueExceeded, o, b, price, seen, c, tolerance) then Some(OrderValueExceeded)
               else if Breaks(DuplicateOrder, o, b, price, seen, c, tolerance) then Some(DuplicateOrder)
               else if Breaks(InsufficientPosition, o, b, price, seen, c, tolerance) then Some(InsufficientPosition)
               else if Breaks(PositionSizeExceeded, o, b, price, seen, c, tolerance) then Some(PositionSizeExceeded)
               else if Breaks(InsufficientCash, o, b, price, seen, c, tolerance) then Some(InsufficientCash)
               else if Breaks(ExposureExceeded, o, b, price, seen, c, tolerance) then Some(ExposureExceeded)
               else None
  {
    hide Breaks, Exposure, Equity, OverExposed, Held, CashRequired, AbsReal, KeyOf;
    LimitsAre(o, b, price, seen, c, tolerance);
  }

  /** Each limit in the terms of the check. */
  lemma LimitsAre(o: Order, b: Book, price: real, seen: set<OrderKey>, c: RiskConfig, tolerance: real)
    requires o.symbol in b.last && b.last[o.symbol] == price
    ensures var held := Held(b, o.symbol);
            var projected := if o.side == Buy then held + o.quantity else held - o.quantity;
            && (Breaks(InvalidQuantity, o, b, price, seen, c, tolerance) <==> o.quantity <= 0.0)
            && (Breaks(OrderValueExceeded, o, b, price, seen, c, tolerance) <==> o.quantity * price > c.maxOrderValue)
            && (Breaks(DuplicateOrder, o, b, price, seen, c, tolerance) <==> KeyOf(o) in seen)
            && (Breaks(InsufficientPosition, o, b, price, seen, c, tolerance) <==> projected < -tolerance)
            && (Breaks(PositionSizeExceeded, o, b, price, seen, c, tolerance) <==> AbsReal(projected) > c.maxPosition)
            && (Breaks(InsufficientCash, o, b, price, seen, c, tolerance) <==>
                  o.side == Buy && CashRequired(o, price, c) > b.cash)
            && (Breaks(ExposureExceeded, o, b, price, seen, c, tolerance) <==>
                  OverExposed(Exposure(b), Equity(b), held, projected, price, c))
  {
    hide Exposure, Equity, OverExposed, Held, CashRequired, WorstCost;
    ProjectedExposure(o, b, price, c);
    CostIs(o, price, c);
    assert price * o.quantity == o.quantity * price;
    PositionLimit(Projected(o, b), c.maxPosition);
  }

  lemma PositionLimit(projected: real, limit: real)
    ensures AbsReal(projected) > limit <==> projected > limit || -projected > limit
  {
  }

  lemma CostIs(o: Order, price: real, c: RiskConfig)
    ensures o.side == Buy ==> CashRequired(o, price, c) == WorstCost(o, price, c)
  {
    assert price * o.quantity == o.quantity * price;
  }

  /** The check's answer: the order as it was, submitted when it breaks no limit and rejected with the first otherwise. */
  lemma CheckAnswers(o: Order, b: Book, price: real, seen: set<OrderKey>, c: RiskConfig, tolerance: real)
    requires o.symbol in b.last && b.last[o.symbol] == price
    ensures var checked := Check(o, b, price, seen, c, tolerance);
            && checked.symbol == o.symbol && checked.side == o.side && checked.quantity == o.quantity
            && checked.id == o.id && checked.createdAt == o.createdAt && checked.filled == 0.0
            && (checked.status == Submitted || checked.status == Rejected)
            && (checked.status == Submitted <==> forall reason: Reason :: !Breaks(reason, o, b, price, seen, c, tolerance))
            && (checked.status == Rejected ==>
                  && checked.reason.Some?
                  && Breaks(checked.reason.value, o, b, price, seen, c, tolerance)
                  && forall reason: Reason :: Place(reason) < Place(checked.reason.value) ==>
                       !Breaks(reason, o, b, price, seen, c, tolerance))
  {
    FirstBrokenLimit(o, b, price, seen, c, tolerance);
    hide Rejection, Breaks;
  }
}
