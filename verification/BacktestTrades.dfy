/** What each bar of a backtest trades, at which price, and when it is in the market. */
module BacktestTrades {
  import opened Common
  import opened Backtest

  /** Bought above and sold below the open by the slippage share; fee and slippage are shares of what changed hands. */
  predicate Charged(t: Trade, open: real, c: Costs) {
    && t.price == open * (if t.side == Buy then 1.0 + c.slip else 1.0 - c.slip)
    && t.notional == t.price * t.quantity && t.fee == t.notional * c.fee
    && t.slippage == open * c.slip * t.quantity && t.quantity > 0.0
  }

  /** The exposure wanted before a bar: the last bar's, none at first. */
  function WantedBefore(bars: seq<Bar>): real { if bars == [] then 0.0 else bars[|bars| - 1].position }

  lemma {:induction false} PreviousIsWanted(capital: real, bars: seq<Bar>, c: Costs)
    requires Priced(bars) && NonNegative(c)
    ensures Run(capital, bars, c).previous == WantedBefore(bars)
  {
    hide Trading;
  }

  /** A bar buys: all the cash goes into shares, fees and slippage included. */
  ghost predicate Buys(a: Account, b: Account, bar: Bar, c: Costs) {
    && |b.trades| == |a.trades| + 1 && b.trades[..|a.trades|] == a.trades
    && var t := b.trades[|a.trades|];
       && t.side == Buy && Charged(t, bar.open, c) && t.notional + t.fee == a.cash && t.realizedPnl == None
       && b.cash == 0.0 && b.shares == t.quantity && b.basis == a.cash
  }

  /** A bar sells: all the shares, for a profit over what they had cost. */
  ghost predicate Sells(a: Account, b: Account, bar: Bar, c: Costs) {
    && |b.trades| == |a.trades| + 1 && b.trades[..|a.trades|] == a.trades
    && var t := b.trades[|a.trades|];
       && t.side == Sell && Charged(t, bar.open, c) && t.quantity == a.shares
       && t.realizedPnl == Some(t.notional - t.fee - a.basis)
       && b.cash == a.cash + t.notional - t.fee && b.shares == 0.0 && b.basis == 0.0
  }

  /**
    A bar buys exactly when more exposure is wanted than before and there is cash, sells exactly when less is wanted and
    there are shares, and otherwise holds.
   */
  lemma BarTrades(capital: real, bars: seq<Bar>, c: Costs)
    requires Priced(bars) && NonNegative(c) && bars != []
    ensures var front, bar := bars[..|bars| - 1], bars[|bars| - 1];
            var a, b := Run(capital, front, c), Run(capital, bars, c);
            var wanted := WantedBefore(front);
            && (bar.position > wanted && a.cash > 0.0 ==> Buys(a, b, bar, c))
            && (bar.position < wanted && a.shares > 0.0 ==> Sells(a, b, bar, c))
            && (!(bar.position > wanted && a.cash > 0.0) && !(bar.position < wanted && a.shares > 0.0) ==>
                  b.trades == a.trades && b.cash == a.cash && b.shares == a.shares && b.basis == a.basis)
  {
    hide Step, Buys, Sells;
    var front, bar := bars[..|bars| - 1], bars[|bars| - 1];
    var a := Run(capital, front, c);
    PreviousIsWanted(capital, front, c);
    if bar.position > a.previous && a.cash > 0.0 {
      StepBuys(a, bar, c);
    } else if bar.position < a.previous && a.shares > 0.0 {
      StepSells(a, bar, c);
    } else {
      StepHolds(a, bar, c);
    }
  }

  lemma StepBuys(a: Account, bar: Bar, c: Costs)
    requires Tradable(bar.open, c) && bar.position > a.previous && a.cash > 0.0
    ensures Buys(a, Step(a, bar, c), bar, c)
  {
    hide BuyTrade, Worth, Charged;
    BuySpendsAll(a.cash, bar.open, c);
    BuyIsCharged(a.cash, bar.open, c);
    TradeAppended(a.trades, BuyTrade(a.cash, bar.open, c));
  }

  lemma StepSells(a: Account, bar: Bar, c: Costs)
    requires Tradable(bar.open, c) && bar.position < a.previous && a.shares > 0.0
    ensures Sells(a, Step(a, bar, c), bar, c)
  {
    hide SellTrade, Worth, Charged;
    SellIsCharged(a.shares, a.basis, bar.open, c);
    TradeAppended(a.trades, SellTrade(a.shares, a.basis, bar.open, c));
  }

  lemma StepHolds(a: Account, bar: Bar, c: Costs)
    requires Tradable(bar.open, c)
    requires !(bar.position > a.previous && a.cash > 0.0) && !(bar.position < a.previous && a.shares > 0.0)
    ensures var b := Step(a, bar, c);
            b.trades == a.trades && b.cash == a.cash && b.shares == a.shares && b.basis == a.basis
  {
  }

  lemma TradeAppended(trades: seq<Trade>, t: Trade)
    ensures (trades + [t])[..|trades|] == trades && (trades + [t])[|trades|] == t
    ensures Slippages(trades + [t]) == Slippages(trades) + t.slippage
  {
  }

  lemma BuyIsCharged(cash: real, open: real, c: Costs)
    requires Tradable(open, c) && cash > 0.0
    ensures Charged(BuyTrade(cash, open, c), open, c) && BuyTrade(cash, open, c).side == Buy
    ensures BuyTrade(cash, open, c).realizedPnl == None
  {
    BuySpendsAll(cash, open, c);
    var q := BuyTrade(cash, open, c).quantity;
    assert q * open * c.slip == open * c.slip * q;
  }

  lemma SellIsCharged(shares: real, basis: real, open: real, c: Costs)
    requires Tradable(open, c) && shares > 0.0
    ensures var t := SellTrade(shares, basis, open, c);
            && Charged(t, open, c) && t.side == Sell && t.quantity == shares
            && t.realizedPnl == Some(t.notional - t.fee - basis)
  {
    assert shares * open * c.slip == open * c.slip * shares;
  }

  function Slippages(trades: seq<Trade>): real
  {
    if trades == [] then 0.0 else Slippages(trades[..|trades| - 1]) + trades[|trades| - 1].slippage
  }

  /** The three totals of a backtest are the sums over its trades. */
  lemma {:induction false} TotalsAdd(capital: real, bars: seq<Bar>, c: Costs)
    requires Priced(bars) && NonNegative(c)
    ensures var a := Run(capital, bars, c);
            a.turnover == Notional(a.trades) && a.fees == Fees(a.trades) && a.slippage == Slippages(a.trades)
  {
    hide Trading, Slippages;
    TotalsMatchTrades(capital, bars, c);
    if bars != [] {
      TotalsAdd(capital, bars[..|bars| - 1], c);
      SlippageAdds(Run(capital, bars[..|bars| - 1], c), bars[|bars| - 1], c);
    } else {
      assert Slippages([]) == 0.0 by { NoSlippage(); }
    }
  }

  lemma NoSlippage()
    ensures Slippages([]) == 0.0
  {
  }

  lemma SlippageAdds(a: Account, bar: Bar, c: Costs)
    requires Tradable(bar.open, c) && a.slippage == Slippages(a.trades)
    ensures Trading(a, bar, c).slippage == Slippages(Trading(a, bar, c).trades)
  {
    hide BuyTrade, SellTrade, Slippages;
    if bar.position > a.previous && a.cash > 0.0 {
      TradeAppended(a.trades, BuyTrade(a.cash, bar.open, c));
    } else if bar.position < a.previous && a.shares > 0.0 {
      TradeAppended(a.trades, SellTrade(a.shares, a.basis, bar.open, c));
    }
  }

  /** The column is obeyed: with rates below one and a long-or-flat column, shares are held exactly on its long bars. */
  lemma {:induction false} HoldsWhenLong(capital: real, bars: seq<Bar>, c: Costs)
    requires Priced(bars) && NonNegative(c) && c.fee < 1.0 && c.slip < 1.0 && capital > 0.0
    requires forall i :: 0 <= i < |bars| ==> bars[i].position == 0.0 || bars[i].position == 1.0
    ensures var a := Run(capital, bars, c);
            && (a.shares > 0.0 <==> WantedBefore(bars) == 1.0) && a.shares >= 0.0
            && (a.shares == 0.0 ==> a.cash > 0.0)
  {
    if bars != [] {
      var front, bar := bars[..|bars| - 1], bars[|bars| - 1];
      var a, b := Run(capital, front, c), Run(capital, bars, c);
      HoldsWhenLong(capital, front, c);
      RunIsBooked(capital, front, c);
      BarTrades(capital, bars, c);
      hide Run, Buys, Sells;
      if bar.position < WantedBefore(front) {
        SaleBrings(a, b, bar, c);
      }
      if bar.position > WantedBefore(front) {
        BuyHolds(a, b, bar, c);
      }
    }
  }

  lemma BuyHolds(a: Account, b: Account, bar: Bar, c: Costs)
    requires Buys(a, b, bar, c)
    ensures b.shares > 0.0
  {
  }

  lemma SaleBrings(a: Account, b: Account, bar: Bar, c: Costs)
    requires Sells(a, b, bar, c) && bar.open > 0.0 && a.cash >= 0.0 && NonNegative(c) && c.fee < 1.0 && c.slip < 1.0
    ensures b.cash > 0.0 && b.shares == 0.0
  {
    var t := b.trades[|a.trades|];
    PositiveProduct(bar.open, 1.0 - c.slip);
    PositiveProduct(t.price, t.quantity);
    PositiveProduct(t.notional, 1.0 - c.fee);
    assert t.notional * (1.0 - c.fee) == t.notional - t.fee;
  }
}
