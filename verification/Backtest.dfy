/** The long-only backtest loop: at each bar's open it goes all in or all out, paying fees and slippage. */
module Backtest {
  import opened Common

  datatype Side = Buy | Sell

  /** A bar as the loop reads it; `position` is the desired exposure decided on earlier bars. */
  datatype Bar = Bar(open: real, close: real, position: real)

  datatype Costs = Costs(fee: real, slip: real)

  datatype Trade = Trade(side: Side, quantity: real, price: real, notional: real, fee: real, slippage: real,
                         realizedPnl: Option<real>)

  datatype Account = Account(cash: real, shares: real, basis: real, previous: real,
                             trades: seq<Trade>, equity: seq<real>,
                             turnover: real, fees: real, slippage: real)

  predicate Priced(bars: seq<Bar>) {
    forall i :: 0 <= i < |bars| ==> bars[i].open > 0.0 && bars[i].close > 0.0
  }

  predicate NonNegative(c: Costs) { c.fee >= 0.0 && c.slip >= 0.0 }

  function Start(capital: real): Account {
    Account(capital, 0.0, 0.0, 0.0, [], [], 0.0, 0.0, 0.0)
  }

  predicate Tradable(open: real, c: Costs) { open > 0.0 && NonNegative(c) }

  /** What one share costs, slippage and fee included. */
  function AllIn(open: real, c: Costs): real { Marked(open, c.slip) * (1.0 + c.fee) }

  /** The open moved against the trader by slippage: up for a purchase, down for a sale. */
  function Marked(open: real, slip: real): real { open * (1.0 + slip) }

  lemma AllInPositive(open: real, c: Costs)
    requires Tradable(open, c)
    ensures AllIn(open, c) > 0.0
  {
    assert Marked(open, c.slip) > 0.0;
  }

  /** Spend all of `cash` at the open marked up by slippage, fees included. */
  function BuyTrade(cash: real, open: real, c: Costs): Trade
    requires Tradable(open, c)
  {
    var price := Marked(open, c.slip);
    AllInPositive(open, c);
    var shares := cash / AllIn(open, c);
    var notional := shares * price;
    Trade(Buy, shares, price, notional, notional * c.fee, shares * open * c.slip, None)
  }

  /** Sell all `shares` at the open marked down by slippage. */
  function SellTrade(shares: real, basis: real, open: real, c: Costs): Trade {
    var price := Marked(open, -c.slip);
    var notional := shares * price;
    var fee := notional * c.fee;
    Trade(Sell, shares, price, notional, fee, shares * open * c.slip, Some(notional - fee - basis))
  }

  function Trading(a: Account, bar: Bar, c: Costs): Account
    requires Tradable(bar.open, c)
  {
    if bar.position > a.previous && a.cash > 0.0 then
      var t := BuyTrade(a.cash, bar.open, c);
      Booking(a, t).(cash := a.cash - (t.notional + t.fee), shares := t.quantity, basis := t.notional + t.fee)
    else if bar.position < a.previous && a.shares > 0.0 then
      var t := SellTrade(a.shares, a.basis, bar.open, c);
      Booking(a, t).(cash := a.cash + (t.notional - t.fee), shares := 0.0, basis := 0.0)
    else a
  }

  /** Every trade is listed and added to the running totals. */
  function Booking(a: Account, t: Trade): Account {
    a.(trades := a.trades + [t], turnover := a.turnover + t.notional, fees := a.fees + t.fee,
       slippage := a.slippage + t.slippage)
  }

  function Worth(cash: real, shares: real, price: real): real { cash + shares * price }

  function Step(a: Account, bar: Bar, c: Costs): Account
    requires Tradable(bar.open, c)
  {
    var b := Trading(a, bar, c);
    b.(previous := bar.position, equity := b.equity + [Worth(b.cash, b.shares, bar.close)])
  }

  function Run(capital: real, bars: seq<Bar>, c: Costs): Account
    requires Priced(bars) && NonNegative(c)
  {
    if bars == [] then Start(capital)
    else Step(Run(capital, bars[..|bars| - 1], c), bars[|bars| - 1], c)
  }

  /** The loop itself, over local variables, against the run it computes. */
  method RunBacktest(bars: seq<Bar>, capital: real, c: Costs)
    returns (equity: seq<real>, trades: seq<Trade>, turnover: real, fees: real, slippage: real)
    requires Priced(bars) && NonNegative(c)
    ensures var end := Run(capital, bars, c);
            equity == end.equity && trades == end.trades &&
            turnover == end.turnover && fees == end.fees && slippage == end.slippage
  {
    var cash, shares, basis, previous := capital, 0.0, 0.0, 0.0;
    equity, trades, turnover, fees, slippage := [], [], 0.0, 0.0, 0.0;
    hide BuyTrade, SellTrade, Worth;
    assert bars[..0] == [];
    for i := 0 to |bars|
      invariant Account(cash, shares, basis, previous, trades, equity, turnover, fees, slippage)
             == Run(capital, bars[..i], c)
    {
      assert bars[..i + 1][..i] == bars[..i];
      assert Run(capital, bars[..i + 1], c) == Step(Run(capital, bars[..i], c), bars[i], c);
      var open, close, desired := bars[i].open, bars[i].close, bars[i].position;
      if desired > previous && cash > 0.0 {
        var t := BuyTrade(cash, open, c);
        shares := t.quantity;
        cash := cash - (t.notional + t.fee);
        basis := t.notional + t.fee;
        turnover, fees, slippage := turnover + t.notional, fees + t.fee, slippage + t.slippage;
        trades := trades + [t];
      } else if desired < previous && shares > 0.0 {
        var t := SellTrade(shares, basis, open, c);
        cash := cash + (t.notional - t.fee);
        turnover, fees, slippage := turnover + t.notional, fees + t.fee, slippage + t.slippage;
        trades := trades + [t];
        shares, basis := 0.0, 0.0;
      }
      assert Trading(Run(capital, bars[..i], c), bars[i], c)
             == Account(cash, shares, basis, previous, trades, equity, turnover, fees, slippage);
      equity := equity + [Worth(cash, shares, close)];
      previous := desired;
      assert Step(Run(capital, bars[..i], c), bars[i], c)
             == Account(cash, shares, basis, previous, trades, equity, turnover, fees, slippage);
    }
    assert bars[..|bars|] == bars;
  }

  // ----- What a run means -----

  function Realized(trades: seq<Trade>): real
  {
    if trades == [] then 0.0
    else Realized(trades[..|trades| - 1]) + trades[|trades| - 1].realizedPnl.GetOr(0.0)
  }

  function Notional(trades: seq<Trade>): real
  {
    if trades == [] then 0.0 else Notional(trades[..|trades| - 1]) + trades[|trades| - 1].notional
  }

  function Fees(trades: seq<Trade>): real
  {
    if trades == [] then 0.0 else Fees(trades[..|trades| - 1]) + trades[|trades| - 1].fee
  }

  predicate Alternating(trades: seq<Trade>) {
    forall i :: 0 <= i < |trades| ==> trades[i].side == if i % 2 == 0 then Buy else Sell
  }

  /** What every row keeps: one of cash and shares is exactly zero, and cash plus cost basis is earned money. */
  ghost predicate Booked(a: Account, capital: real) {
    && (a.shares == 0.0 || (a.shares > 0.0 && a.cash == 0.0))
    && (a.shares > 0.0 <==> |a.trades| % 2 == 1)
    && (a.shares == 0.0 ==> a.basis == 0.0)
    && Alternating(a.trades)
    && a.cash + a.basis == capital + Realized(a.trades)
    && a.turnover == Notional(a.trades) && a.fees == Fees(a.trades)
  }

  /** A purchase leaves exactly nothing behind, and buys something. */
  lemma BuySpendsAll(cash: real, open: real, c: Costs)
    requires Tradable(open, c) && cash > 0.0
    ensures var t := BuyTrade(cash, open, c); t.notional + t.fee == cash && t.quantity > 0.0
  {
    AllInPositive(open, c);
    var shares, price := cash / AllIn(open, c), Marked(open, c.slip);
    assert shares * AllIn(open, c) == cash;
    assert shares * (price * (1.0 + c.fee)) == shares * price + shares * price * c.fee;
    PositiveQuotient(cash, AllIn(open, c));
  }

  lemma TradingKeepsBooked(a: Account, bar: Bar, c: Costs, capital: real)
    requires Tradable(bar.open, c) && Booked(a, capital)
    ensures var b := Trading(a, bar, c); Booked(b, capital) && b.equity == a.equity && a.trades <= b.trades
  {
    var b := Trading(a, bar, c);
    if bar.position > a.previous && a.cash > 0.0 {
      BuySpendsAll(a.cash, bar.open, c);
      hide BuyTrade;
      assert b.trades[..|a.trades|] == a.trades;
    } else if bar.position < a.previous && a.shares > 0.0 {
      assert b.trades[..|a.trades|] == a.trades;
    }
  }

  lemma {:induction false} RunIsBooked(capital: real, bars: seq<Bar>, c: Costs)
    requires Priced(bars) && NonNegative(c)
    ensures Booked(Run(capital, bars, c), capital)
    ensures |Run(capital, bars, c).equity| == |bars|
  {
    if bars != [] {
      var front := bars[..|bars| - 1];
      RunIsBooked(capital, front, c);
      TradingKeepsBooked(Run(capital, front, c), bars[|bars| - 1], c, capital);
    }
  }

  lemma StepExtends(a: Account, bar: Bar, c: Costs)
    requires Tradable(bar.open, c)
    ensures var b := Step(a, bar, c);
            && b.equity == a.equity + [Worth(b.cash, b.shares, bar.close)] && a.trades <= b.trades
  {
    hide BuyTrade, SellTrade, Worth;
  }

  lemma {:induction false} RowPerBar(capital: real, bars: seq<Bar>, c: Costs)
    requires Priced(bars) && NonNegative(c)
    ensures |Run(capital, bars, c).equity| == |bars|
  {
    hide Step;
    if bars != [] {
      RowPerBar(capital, bars[..|bars| - 1], c);
      StepExtends(Run(capital, bars[..|bars| - 1], c), bars[|bars| - 1], c);
    }
  }

  /** A later bar never changes an earlier row: row k is the last row of the run over the first k + 1 bars. */
  lemma {:induction false} RowsAreStable(capital: real, bars: seq<Bar>, c: Costs, k: nat)
    requires Priced(bars) && NonNegative(c) && k < |bars|
    ensures |Run(capital, bars, c).equity| == |bars|
    ensures var a := Run(capital, bars[..k + 1], c);
            Run(capital, bars, c).equity[k] == a.cash + a.shares * bars[k].close
    ensures Run(capital, bars[..k + 1], c).trades <= Run(capital, bars, c).trades
  {
    hide Step;
    var front := bars[..|bars| - 1];
    RowPerBar(capital, bars, c);
    RowPerBar(capital, front, c);
    StepExtends(Run(capital, front, c), bars[|bars| - 1], c);
    if k + 1 == |bars| {
      assert bars[..k + 1] == bars;
    } else {
      assert front[..k + 1] == bars[..k + 1];
      RowsAreStable(capital, front, c, k);
    }
  }

  /**
    At every row of every run: all cash or all shares, the other exactly zero; trades alternate starting with a BUY;
    and equity is the starting capital plus realised profit plus the open position's profit over its cost.
   */
  lemma EveryRowIsBooked(capital: real, bars: seq<Bar>, c: Costs, k: nat)
    requires Priced(bars) && NonNegative(c) && k < |bars|
    ensures |Run(capital, bars, c).equity| == |bars|
    ensures var a := Run(capital, bars[..k + 1], c);
            && (a.shares == 0.0 || (a.shares > 0.0 && a.cash == 0.0))
            && Run(capital, bars, c).equity[k]
               == capital + Realized(a.trades) + (a.shares * bars[k].close - a.basis)
    ensures Alternating(Run(capital, bars, c).trades)
  {
    RunIsBooked(capital, bars, c);
    RunIsBooked(capital, bars[..k + 1], c);
    RowsAreStable(capital, bars, c, k);
  }

  /** Totals are the sums of the trades' own figures. */
  lemma TotalsMatchTrades(capital: real, bars: seq<Bar>, c: Costs)
    requires Priced(bars) && NonNegative(c)
    ensures var a := Run(capital, bars, c); a.turnover == Notional(a.trades) && a.fees == Fees(a.trades)
  {
    RunIsBooked(capital, bars, c);
  }

  // ----- When costs only hurt -----

  /** Rates that are raised, not lowered. */
  predicate Raised(c: Costs, d: Costs) { 0.0 <= c.fee <= d.fee && 0.0 <= c.slip <= d.slip }

  /** What a sale brings for each share sold at an open of one. */
  function PerSale(c: Costs): real { (1.0 - c.slip) * (1.0 - c.fee) }

  /** What a purchase costs for each share bought at an open of one. */
  function PerPurchase(c: Costs): real { (1.0 + c.slip) * (1.0 + c.fee) }

  /** The share of the cash that a round trip at one price keeps; below zero when the sale costs money. */
  function Kept(c: Costs): real
    requires NonNegative(c)
  {
    PurchaseIsPositive(c);
    PerSale(c) / PerPurchase(c)
  }

  lemma PurchaseIsPositive(c: Costs)
    requires NonNegative(c)
    ensures PerPurchase(c) > 0.0
  {
    MulOrder(1.0, 1.0 + c.slip, 1.0, 1.0 + c.fee);
  }

  /**
    The relation between a cheap run and a dear one: both out of the market, both in it, or only the cheap one in it
    because the dear one has nothing left to buy with.
   */
  ghost predicate Ahead(a: Account, b: Account, c: Costs, d: Costs) {
    && a.previous == b.previous
    && (|| (a.shares == b.shares == 0.0 && a.cash >= b.cash
            && (PerSale(c) < 0.0 ==> a.cash == b.cash || a.cash <= 0.0))
        || (a.cash == b.cash == 0.0 && a.shares >= b.shares > 0.0 && a.shares * PerSale(c) >= b.shares * PerSale(d))
        || (a.cash == b.shares == 0.0 && a.shares > 0.0 && b.cash <= 0.0 && PerSale(c) >= 0.0))
  }

  lemma MulOrder(x: real, y: real, s: real, t: real)
    requires 0.0 < x <= y && 0.0 < s <= t
    ensures 0.0 < x * s <= y * t
  {
    assert x * s <= y * s <= y * t;
  }

  lemma QuotientOrder(x: real, y: real, p: real, q: real)
    requires x >= y > 0.0 && 0.0 < p <= q
    ensures x / p >= y / q > 0.0
  {
    var s, t := x / p, y / q;
    assert s * p == x && t * q == y;
    PositiveQuotient(y, q);
    if s < t {
      PositiveQuotient(x, p);
      MulOrder(s, t, p, q);
      assert s * p < t * p <= t * q;
    }
  }

  lemma BuyingKeepsOrder(cash: real, less: real, open: real, c: Costs, d: Costs)
    requires cash >= less > 0.0 && open > 0.0 && Raised(c, d)
    ensures BuyTrade(cash, open, c).quantity >= BuyTrade(less, open, d).quantity > 0.0
  {
    AllInOrder(open, c, d);
    QuotientOrder(cash, less, AllIn(open, c), AllIn(open, d));
    hide AllIn;
  }

  lemma AllInOrder(open: real, c: Costs, d: Costs)
    requires open > 0.0 && Raised(c, d)
    ensures 0.0 < AllIn(open, c) <= AllIn(open, d)
  {
    MulOrder(open, open, 1.0 + c.slip, 1.0 + d.slip);
    hide Marked;
    MulOrder(Marked(open, c.slip), Marked(open, d.slip), 1.0 + c.fee, 1.0 + d.fee);
  }

  /** Shares bought and sold again bring the kept share of the cash, at the ratio of the opens. */
  lemma BoughtShares(cash: real, open: real, c: Costs)
    requires Tradable(open, c)
    ensures BuyTrade(cash, open, c).quantity * PerSale(c) == cash / open * Kept(c)
  {
    PurchaseIsPositive(c);
    AllInPositive(open, c);
    assert AllIn(open, c) == open * PerPurchase(c);
    hide AllIn, PerPurchase, PerSale;
    Regrouped(cash, open, PerPurchase(c), PerSale(c));
  }

  lemma Regrouped(cash: real, open: real, b: real, a: real)
    requires open > 0.0 && b > 0.0
    ensures open * b > 0.0 && cash / (open * b) * a == cash / open * (a / b)
  {
    assert open * b > 0.0;
    var x, y := cash / open, a / b;
    assert cash == x * open && a == y * b;
    assert cash / (open * b) * (open * b) == cash;
    var q := cash / (open * b);
    assert q * b * open == x * open;
    assert q * b == x;
    assert q * a == q * (y * b) == (q * b) * y;
  }

  lemma SaleProceeds(shares: real, basis: real, open: real, c: Costs)
    ensures var t := SellTrade(shares, basis, open, c); t.notional - t.fee == open * (shares * PerSale(c))
  {
    var price := open * (1.0 - c.slip);
    assert Marked(open, -c.slip) == price;
    assert shares * price - shares * price * c.fee == shares * price * (1.0 - c.fee);
    assert shares * price * (1.0 - c.fee) == open * (shares * ((1.0 - c.slip) * (1.0 - c.fee)));
  }

  lemma Scaled(k: real, x: real, y: real)
    requires k >= 0.0 && x >= y
    ensures k * x >= k * y
  {
  }

  lemma SignOfKept(c: Costs)
    requires NonNegative(c)
    ensures PerSale(c) < 0.0 <==> Kept(c) < 0.0
  {
    PurchaseIsPositive(c);
    var k := Kept(c);
    assert k * PerPurchase(c) == PerSale(c);
    hide PerSale, PerPurchase;
    if k < 0.0 { Scaled(PerPurchase(c), 0.0, k); } else { Scaled(PerPurchase(c), k, 0.0); }
  }

  /** Cash at an open, and the share of it that is kept. */
  lemma KeptCashOrder(cash: real, less: real, open: real, k: real, l: real)
    requires cash >= less > 0.0 && open > 0.0 && k >= l && (k < 0.0 ==> cash == less)
    ensures cash / open * k >= less / open * l
  {
    var x, y := cash / open, less / open;
    QuotientOrder(cash, less, open, open);
    Scaled(y, k, l);
    if k >= 0.0 {
      Scaled(k, x, y);
    }
  }

  /** Two purchases, the cheaper with no less cash: the cheaper shares sell for no less. */
  lemma KeptOrder(cash: real, less: real, open: real, c: Costs, d: Costs)
    requires cash >= less > 0.0 && open > 0.0 && Raised(c, d) && Kept(c) >= Kept(d)
    requires PerSale(c) < 0.0 ==> cash == less
    ensures BuyTrade(cash, open, c).quantity * PerSale(c) >= BuyTrade(less, open, d).quantity * PerSale(d)
  {
    hide BuyTrade, PerSale, Kept;
    BoughtShares(cash, open, c);
    BoughtShares(less, open, d);
    SignOfKept(c);
    KeptCashOrder(cash, less, open, Kept(c), Kept(d));
  }

  lemma BuyingKeepsAhead(a: Account, b: Account, bar: Bar, c: Costs, d: Costs)
    requires bar.open > 0.0 && Raised(c, d) && Kept(c) >= Kept(d) && Ahead(a, b, c, d)
    requires bar.position > a.previous && a.cash > 0.0
    ensures Ahead(Trading(a, bar, c), Trading(b, bar, d), c, d)
  {
    hide BuyTrade, PerSale, Kept;
    BuySpendsAll(a.cash, bar.open, c);
    if b.cash > 0.0 {
      BuySpendsAll(b.cash, bar.open, d);
      BuyingKeepsOrder(a.cash, b.cash, bar.open, c, d);
      KeptOrder(a.cash, b.cash, bar.open, c, d);
    }
  }

  lemma SellingKeepsAhead(a: Account, b: Account, bar: Bar, c: Costs, d: Costs)
    requires bar.open > 0.0 && Raised(c, d) && Ahead(a, b, c, d)
    requires bar.position < a.previous && a.shares > 0.0
    ensures Ahead(Trading(a, bar, c), Trading(b, bar, d), c, d)
  {
    hide SellTrade, PerSale;
    SaleProceeds(a.shares, a.basis, bar.open, c);
    SaleSign(bar.open, a.shares, PerSale(c));
    var sold := Trading(a, bar, c);
    assert sold.cash == bar.open * (a.shares * PerSale(c)) && sold.shares == 0.0;
    if b.shares > 0.0 {
      SaleProceeds(b.shares, b.basis, bar.open, d);
      Scaled(bar.open, a.shares * PerSale(c), b.shares * PerSale(d));
      assert Trading(b, bar, d).cash == bar.open * (b.shares * PerSale(d)) && Trading(b, bar, d).shares == 0.0;
    } else {
      assert Trading(b, bar, d) == b;
    }
  }

  lemma TradingKeepsAhead(a: Account, b: Account, bar: Bar, c: Costs, d: Costs)
    requires bar.open > 0.0 && Raised(c, d) && Kept(c) >= Kept(d) && Ahead(a, b, c, d)
    ensures Ahead(Trading(a, bar, c), Trading(b, bar, d), c, d)
  {
    hide BuyTrade, SellTrade, PerSale, Kept;
    if bar.position > a.previous && a.cash > 0.0 {
      BuyingKeepsAhead(a, b, bar, c, d);
    } else if bar.position < a.previous && a.shares > 0.0 {
      SellingKeepsAhead(a, b, bar, c, d);
    }
  }

  lemma SaleSign(open: real, shares: real, perSale: real)
    requires open > 0.0 && shares > 0.0
    ensures perSale >= 0.0 ==> open * (shares * perSale) >= 0.0
    ensures perSale < 0.0 ==> open * (shares * perSale) <= 0.0
  {
    if perSale >= 0.0 {
      assert shares * perSale >= 0.0;
    } else {
      assert shares * perSale <= 0.0;
    }
  }

  lemma {:induction false} RunsStayAhead(capital: real, bars: seq<Bar>, c: Costs, d: Costs)
    requires Priced(bars) && Raised(c, d) && Kept(c) >= Kept(d)
    ensures Ahead(Run(capital, bars, c), Run(capital, bars, d), c, d)
  {
    hide PerSale, Kept, Trading;
    if bars != [] {
      var front := bars[..|bars| - 1];
      RunsStayAhead(capital, front, c, d);
      TradingKeepsAhead(Run(capital, front, c), Run(capital, front, d), bars[|bars| - 1], c, d);
    }
  }

  lemma WorthKeepsOrder(a: Account, b: Account, c: Costs, d: Costs, price: real)
    requires Ahead(a, b, c, d) && price > 0.0
    ensures a.cash + a.shares * price >= b.cash + b.shares * price
  {
    hide PerSale;
    assert a.shares >= b.shares ==> (a.shares - b.shares) * price >= 0.0;
    assert a.shares > 0.0 ==> a.shares * price >= 0.0;
  }

  lemma RowNeverHigher(capital: real, bars: seq<Bar>, c: Costs, d: Costs, k: nat)
    requires Priced(bars) && Raised(c, d) && Kept(c) >= Kept(d) && k < |bars|
    requires |Run(capital, bars, c).equity| == |Run(capital, bars, d).equity| == |bars|
    ensures Run(capital, bars, c).equity[k] >= Run(capital, bars, d).equity[k]
  {
    hide Trading, Run, Kept, Ahead;
    RowsAreStable(capital, bars, c, k);
    RowsAreStable(capital, bars, d, k);
    RunsStayAhead(capital, bars[..k + 1], c, d);
    var a, b := Run(capital, bars[..k + 1], c), Run(capital, bars[..k + 1], d);
    WorthKeepsOrder(a, b, c, d, bars[k].close);
  }

  /**
    Raising the fee rate or the slippage rate never raises equity on any row of any run, when a round trip at the
    raised rates keeps no more of the cash than one at the old rates.
   */
  lemma CostsOnlyHurt(capital: real, bars: seq<Bar>, c: Costs, d: Costs)
    requires Priced(bars) && Raised(c, d) && Kept(c) >= Kept(d)
    ensures var cheap, dear := Run(capital, bars, c).equity, Run(capital, bars, d).equity;
            && |cheap| == |dear| == |bars|
            && forall k :: 0 <= k < |bars| ==> cheap[k] >= dear[k]
  {
    hide Trading, Kept;
    RunIsBooked(capital, bars, c);
    RunIsBooked(capital, bars, d);
    forall k | 0 <= k < |bars|
      ensures Run(capital, bars, c).equity[k] >= Run(capital, bars, d).equity[k]
    {
      RowNeverHigher(capital, bars, c, d, k);
    }
  }

  lemma NonNegativeProduct(a: real, b: real)
    requires a >= 0.0 && b >= 0.0
    ensures a * b >= 0.0
  {
  }

  lemma SalesOrder(c: Costs, d: Costs)
    requires Raised(c, d) && d.fee <= 1.0 && d.slip <= 1.0
    ensures PerSale(c) >= PerSale(d) >= 0.0
  {
    var u, v, x, y := 1.0 - c.slip, 1.0 - d.slip, 1.0 - c.fee, 1.0 - d.fee;
    NonNegativeProduct(v, y);
    NonNegativeProduct(v, x - y);
    NonNegativeProduct(u - v, x);
    assert u * x == v * x + (u - v) * x && v * x == v * y + v * (x - y);
  }

  /** Rates of at most one always keep less when they are raised. */
  lemma RatesUpToOneKeepLess(c: Costs, d: Costs)
    requires Raised(c, d) && d.fee <= 1.0 && d.slip <= 1.0
    ensures Kept(c) >= Kept(d)
  {
    PurchaseIsPositive(c);
    PurchaseIsPositive(d);
    MulOrder(1.0 + c.slip, 1.0 + d.slip, 1.0 + c.fee, 1.0 + d.fee);
    SalesOrder(c, d);
    hide PerSale, PerPurchase;
    if PerSale(d) > 0.0 {
      QuotientOrder(PerSale(c), PerSale(d), PerPurchase(c), PerPurchase(d));
    } else if PerSale(c) > 0.0 {
      PositiveQuotient(PerSale(c), PerPurchase(c));
    }
  }

  // ----- The round trip that shows the condition is needed -----

  lemma {:induction false} FlatRows(capital: real, bars: seq<Bar>, c: Costs)
    requires Priced(bars) && NonNegative(c) && forall i :: 0 <= i < |bars| ==> bars[i].position == 0.0
    ensures var a := Run(capital, bars, c); a == Start(capital).(equity := a.equity)
  {
    if bars != [] {
      FlatRows(capital, bars[..|bars| - 1], c);
    }
  }

  /** Warm-up rows out of the market, then one bar in it, at opens of one. */
  predicate OneRoundTrip(bars: seq<Bar>) {
    && Priced(bars) && |bars| >= 2 && (forall i :: 0 <= i < |bars| - 2 ==> bars[i].position == 0.0)
    && bars[|bars| - 2].position == 1.0 && bars[|bars| - 2].open == 1.0
    && bars[|bars| - 1].position == 0.0 && bars[|bars| - 1].open == 1.0
  }

  lemma EntersAllIn(a: Account, bar: Bar, capital: real, c: Costs)
    requires Tradable(bar.open, c) && bar.open == 1.0 && bar.position == 1.0
    requires capital > 0.0 && a == Start(capital).(equity := a.equity)
    ensures var b, t := Step(a, bar, c), BuyTrade(capital, 1.0, c);
            && b.cash == 0.0 && b.shares == t.quantity > 0.0 && b.previous == 1.0
            && |b.equity| == |a.equity| + 1
  {
    hide BuyTrade;
    BuySpendsAll(capital, 1.0, c);
  }

  lemma LeavesAllOut(a: Account, bar: Bar, c: Costs)
    requires Tradable(bar.open, c) && bar.open == 1.0 && bar.position == 0.0
    requires a.cash == 0.0 && a.shares > 0.0 && a.previous == 1.0
    ensures Step(a, bar, c).equity == a.equity + [a.shares * PerSale(c)]
  {
    hide SellTrade, PerSale;
    SaleProceeds(a.shares, a.basis, 1.0, c);
    var t := SellTrade(a.shares, a.basis, 1.0, c);
    assert t.notional - t.fee == 1.0 * (a.shares * PerSale(c)) == a.shares * PerSale(c);
    assert Trading(a, bar, c).cash == a.shares * PerSale(c) && Trading(a, bar, c).shares == 0.0;
    NoShares(a.shares * PerSale(c), bar.close);
  }

  lemma NoShares(cash: real, price: real)
    ensures Worth(cash, 0.0, price) == cash
  {
  }

  /** A round trip ends with the kept share of the capital. */
  lemma RoundTripKeeps(capital: real, bars: seq<Bar>, c: Costs)
    requires OneRoundTrip(bars) && NonNegative(c) && capital > 0.0
    ensures |Run(capital, bars, c).equity| == |bars|
    ensures Run(capital, bars, c).equity[|bars| - 1] == capital * Kept(c)
  {
    var n := |bars|;
    hide Step, BuyTrade, Kept, PerSale;
    FlatRows(capital, bars[..n - 2], c);
    RowPerBar(capital, bars[..n - 2], c);
    assert bars[..n - 1][..n - 2] == bars[..n - 2];
    var out := Run(capital, bars[..n - 2], c);
    assert Run(capital, bars[..n - 1], c) == Step(out, bars[n - 2], c);
    EntersAllIn(out, bars[n - 2], capital, c);
    LeavesAllOut(Run(capital, bars[..n - 1], c), bars[n - 1], c);
    BoughtShares(capital, 1.0, c);
  }
}
