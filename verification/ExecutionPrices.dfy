/** What each execution model charges, from the quotes of the event to the fields of the fill. */
module ExecutionPrices {
  import opened Common
  import opened Execution

  /** The best bid and ask, and the middle between them. */
  datatype Quotes = Quotes(bid: real, ask: real, mid: real)

  function Direction(side: Side): real { if side == Buy then 1.0 else -1.0 }

  function Share(bps: real): real { bps / 10000.0 }

  /** IDEAL trades at the middle; the other models cross to the far side of the spread. */
  function Quoted(side: Side, q: Quotes, c: Config): real {
    match c.model
    case Ideal => q.mid
    case BasicSlippage => if side == Buy then q.ask else q.bid
    case Microstructure => if side == Buy then q.ask else q.bid
  }

  /** Only MICROSTRUCTURE moves the market: by the coefficient's share of the middle, times the root of the part taken. */
  function Moved(quantity: real, q: Quotes, volume: int, c: Config): real {
    match c.model
    case Microstructure =>
      Share(c.impactBps) * q.mid * c.root(if volume >= 1 then quantity / volume as real else quantity)
    case _ => 0.0
  }

  /**
    The fill's price is the quoted one made worse by the slippage share and the market move; its gross, commission and
    the three costs recorded with it follow from that price.
   */
  predicate Charges(f: Fill, q: Quotes, volume: int, c: Config, commissionBps: real) {
    var quoted, moved := Quoted(f.side, q, c), Moved(f.quantity, q, volume, c);
    && f.price == quoted * (1.0 + Direction(f.side) * Share(c.slippageBps)) + Direction(f.side) * moved
    && f.gross == f.price * f.quantity
    && f.fees == f.gross * Share(commissionBps)
    && f.slippageCost == AbsReal(f.price - q.mid) * f.quantity
    && f.spreadCost == AbsReal(quoted - q.mid) * f.quantity
    && f.impactCost == moved * f.quantity
  }

  /** Observed quotes count when the configuration asks for them and they are a market: both there, above zero, not crossed. */
  predicate Usable(event: MarketEvent, c: Config, bid: real, ask: real) {
    c.spreadModel == ObservedOrFixed && event.bid == Some(bid) && event.ask == Some(ask) && 0.0 < bid <= ask
  }

  /** Otherwise half the fixed spread lies on each side of the last price. */
  function Synthetic(last: real, c: Config): Quotes {
    Quotes(last * (1.0 - Share(c.fixedSpreadBps) / 2.0), last * (1.0 + Share(c.fixedSpreadBps) / 2.0), last)
  }

  lemma SlippagePrice(reference: real, slip: real, cost: real)
    requires cost == reference * slip / 10000.0
    ensures reference + cost == reference * (1.0 + Share(slip)) && reference - cost == reference * (1.0 - Share(slip))
  {
    assert cost == reference * Share(slip);
  }

  lemma Commuted(mid: real, bps: real, root: real)
    ensures mid * bps / 10000.0 * root == Share(bps) * mid * root
  {
    assert mid * bps / 10000.0 == Share(bps) * mid;
  }

  /** Whatever the model, from the market state on. */
  lemma FillCharges(order: Order, event: MarketEvent, c: Config, commissionBps: real)
    requires order.filled >= 0.0
    ensures var r, m := BrokerExecute(order, event, c, commissionBps), MarketStateOf(event, c);
            r.Ok? && r.value.fills != [] ==>
              && Charges(r.value.fills[0], Quotes(m.bid, m.ask, m.mid), event.volume, c, commissionBps)
              && r.value.fills[0].timestamp == event.timestamp
  {
    hide MarketStateOf, FillQuantity, Price, Impact, Reference;
    var m := MarketStateOf(event, c);
    KeepsVolume(event, c);
    if order.Executable() {
      var q := FillQuantity(order, m, c);
      PriceIs(order.side, q, m, c);
    }
  }

  lemma KeepsVolume(event: MarketEvent, c: Config)
    ensures var m := MarketStateOf(event, c); m.volume == event.volume && m.timestamp == event.timestamp
  {
  }

  lemma PriceIs(side: Side, quantity: real, m: MarketState, c: Config)
    ensures var q := Quotes(m.bid, m.ask, m.mid);
            && Reference(side, m, c) == Quoted(side, q, c)
            && Impact(quantity, m, c) == Moved(quantity, q, m.volume, c)
            && Price(side, quantity, m, c)
               == Quoted(side, q, c) * (1.0 + Direction(side) * Share(c.slippageBps))
                  + Direction(side) * Moved(quantity, q, m.volume, c)
  {
    hide Impact;
    ImpactIs(quantity, m, c);
    var reference := Reference(side, m, c);
    SlippagePrice(reference, c.slippageBps, reference * c.slippageBps / 10000.0);
    hide Moved, Share;
  }

  lemma PartTaken(quantity: real, volume: int)
    ensures quantity / MaxReal(volume as real, 1.0) == if volume >= 1 then quantity / volume as real else quantity
  {
  }

  lemma ImpactIs(quantity: real, m: MarketState, c: Config)
    ensures Impact(quantity, m, c) == Moved(quantity, Quotes(m.bid, m.ask, m.mid), m.volume, c)
  {
    if c.model == Microstructure {
      var part := if m.volume >= 1 then quantity / m.volume as real else quantity;
      PartTaken(quantity, m.volume);
      assert c.root(quantity / MaxReal(m.volume as real, 1.0)) == c.root(part);
      Commuted(m.mid, c.impactBps, c.root(part));
    }
  }

  /**
    What a broker's fill is charged: by the observed quotes and the middle between them when they are usable, and
    otherwise by the synthetic ones around the last price, which is the open when no last price is known.
   */
  lemma BrokerCharges(order: Order, event: MarketEvent, c: Config, commissionBps: real)
    requires order.filled >= 0.0
    ensures var r := BrokerExecute(order, event, c, commissionBps);
            r.Ok? && r.value.fills != [] ==>
              var f := r.value.fills[0];
              && f.timestamp == event.timestamp
              && (forall bid, ask :: Usable(event, c, bid, ask) ==>
                    Charges(f, Quotes(bid, ask, (bid + ask) / 2.0), event.volume, c, commissionBps))
              && ((forall bid, ask :: !Usable(event, c, bid, ask)) ==>
                    var last := if event.lastPrice == None then event.open else event.lastPrice.value;
                    Charges(f, Synthetic(last, c), event.volume, c, commissionBps))
  {
    hide BrokerExecute, Charges, MarketStateOf;
    FillCharges(order, event, c, commissionBps);
    MarketQuotes(event, c);
  }

  lemma MarketQuotes(event: MarketEvent, c: Config)
    ensures var m := MarketStateOf(event, c);
            var last := if event.lastPrice == None then event.open else event.lastPrice.value;
            && (forall bid, ask :: Usable(event, c, bid, ask) ==>
                  Quotes(m.bid, m.ask, m.mid) == Quotes(bid, ask, (bid + ask) / 2.0))
            && ((forall bid, ask :: !Usable(event, c, bid, ask)) ==> Quotes(m.bid, m.ask, m.mid) == Synthetic(last, c))
  {
    HalfSpread(event.lastPrice.GetOr(event.open), c.fixedSpreadBps);
    if event.bid.Some? && event.ask.Some? {
      assert Usable(event, c, event.bid.value, event.ask.value) <==>
          c.spreadModel == ObservedOrFixed && event.bid.value > 0.0 && event.ask.value >= event.bid.value;
    }
  }

  lemma HalfSpread(last: real, bps: real)
    ensures last * bps / 20000.0 == last * (Share(bps) / 2.0)
    ensures last - last * bps / 20000.0 == last * (1.0 - Share(bps) / 2.0)
    ensures last + last * bps / 20000.0 == last * (1.0 + Share(bps) / 2.0)
  {
    assert last * bps / 20000.0 == last * (Share(bps) / 2.0);
  }
}
