/** Each field of the paper portfolio on its own: what the fills did to cash, quantities, entry prices and marks. */
module PortfolioFlows {
  import opened Common
  import opened Execution
  import opened Portfolio

  // ----- Cash -----

  /** What one fill brings: the gross of a sale, less the gross of a purchase, less its fee in both cases. */
  function Inflow(f: Fill): real { (if f.side == Sell then f.gross else -f.gross) - f.fees }

  function Inflows(fills: seq<Fill>): real
  {
    if fills == [] then 0.0 else Inflows(fills[..|fills| - 1]) + Inflow(fills[|fills| - 1])
  }

  /** Cash is the opening cash and what every fill brought; nothing else moves it. */
  lemma {:induction false} CashFollowsFills(b: Book, fills: seq<Fill>, tolerance: real)
    ensures FoldFills(b, fills, tolerance).cash == b.cash + Inflows(fills)
    ensures FoldFills(b, fills, tolerance).initialCash == b.initialCash
  {
    hide AfterBuy, AfterSell, Gain;
    if fills != [] {
      CashFollowsFills(b, fills[..|fills| - 1], tolerance);
    }
  }

  // ----- Profit -----

  /** What the sales brought after their fees. */
  function Proceeds(fills: seq<Fill>): real
  {
    if fills == [] then 0.0
    else
      var f := fills[|fills| - 1];
      Proceeds(fills[..|fills| - 1]) + if f.side == Sell then f.gross - f.fees else 0.0
  }

  /** What the purchases cost before their fees. */
  function Spent(fills: seq<Fill>): real
  {
    if fills == [] then 0.0
    else
      var f := fills[|fills| - 1];
      Spent(fills[..|fills| - 1]) + if f.side == Buy then f.gross else 0.0
  }

  lemma {:induction false} InflowsSplit(fills: seq<Fill>)
    ensures Inflows(fills) == Proceeds(fills) - Spent(fills) - BuyFees(fills)
  {
    if fills != [] {
      InflowsSplit(fills[..|fills| - 1]);
    }
  }

  /**
    Realised profit: what the sales brought after fees, less what the purchases cost apart from what is still held; and
    less what was credited for quantity not held, plus the cost of dropped remainders.
   */
  lemma {:induction false} ProfitFollowsFills(cash: real, fills: seq<Fill>, tolerance: real)
    requires Positive(fills) && tolerance >= 0.0
    ensures var b := FoldFills(Open(cash), fills, tolerance);
            b.realized == Proceeds(fills) - (Spent(fills) - CostBasis(b))
                          - Phantom(Open(cash), fills, tolerance) + Dropped(Open(cash), fills, tolerance)
  {
    hide FoldFills, Phantom, Dropped;
    AccountingIdentity(cash, fills, tolerance);
    CashFollowsFills(Open(cash), fills, tolerance);
    InflowsSplit(fills);
  }

  // ----- Quantities -----

  /** What a symbol's fills bought less what they sold. */
  function NetQuantity(fills: seq<Fill>, symbol: string): real
  {
    if fills == [] then 0.0
    else
      var f := fills[|fills| - 1];
      NetQuantity(fills[..|fills| - 1], symbol)
      + if f.symbol != symbol then 0.0 else if f.side == Buy then f.quantity else -f.quantity
  }

  /** One fill moves only its own symbol, never sells more than is held, and drops a remainder within the tolerance. */
  lemma HeldAfterFill(b: Book, f: Fill, tolerance: real, symbol: string)
    requires LongOnly(b) && f.quantity > 0.0 && tolerance >= 0.0
    ensures var before, after := Held(b, symbol), Held(ApplyFill(b, f, tolerance), symbol);
            && (f.symbol != symbol ==> after == before)
            && (f.symbol == symbol && f.side == Buy ==> after == before + f.quantity)
            && (f.symbol == symbol && f.side == Sell ==>
                  after == if before <= f.quantity + tolerance then 0.0 else before - f.quantity)
  {
  }

  /** When every sale is of quantity held, what is held is the net quantity, up to the tolerance for each fill. */
  lemma {:induction false} HeldFollowsFills(b: Book, fills: seq<Fill>, tolerance: real, symbol: string)
    requires LongOnly(b) && Positive(fills) && tolerance >= 0.0 && Covered(b, fills, tolerance)
    ensures LongOnly(FoldFills(b, fills, tolerance))
    ensures var net := Held(b, symbol) + NetQuantity(fills, symbol);
            net - tolerance * |fills| as real <= Held(FoldFills(b, fills, tolerance), symbol) <= net
  {
    hide ApplyFill, Held, Covered;
    if fills != [] {
      var front, f := fills[..|fills| - 1], fills[|fills| - 1];
      CoveredSplits(b, fills, tolerance);
      HeldFollowsFills(b, front, tolerance, symbol);
      FillBalances(FoldFills(b, front, tolerance), f, tolerance);
      HeldAfterFill(FoldFills(b, front, tolerance), f, tolerance, symbol);
      assert tolerance * |fills| as real == tolerance * |front| as real + tolerance;
    }
  }

  // ----- Entry prices and marks -----

  /** A purchase leaves the quantity-weighted mean of entry prices; a sale keeps the entry price of what it leaves. */
  lemma EntryAfterFill(b: Book, f: Fill, tolerance: real)
    requires LongOnly(b) && f.quantity > 0.0 && tolerance >= 0.0
    ensures var before, after := PositionOf(b, f.symbol), PositionOf(ApplyFill(b, f, tolerance), f.symbol);
            && (f.side == Buy ==>
                  after.average * after.quantity == before.average * before.quantity + f.gross)
            && (f.side == Sell && after.quantity > 0.0 ==> after.average == before.average)
            && (f.side == Sell && after.quantity == 0.0 ==> after.average == 0.0)
    ensures forall s :: s != f.symbol ==> PositionOf(ApplyFill(b, f, tolerance), s) == PositionOf(b, s)
  {
    if f.side == Buy {
      WeightedMean(PositionOf(b, f.symbol).quantity * PositionOf(b, f.symbol).average + f.gross,
                   PositionOf(b, f.symbol).quantity + f.quantity);
    }
  }

  /** A symbol's mark is its last fill's price. */
  lemma {:induction false} MarkFollowsFills(b: Book, fills: seq<Fill>, tolerance: real, k: nat)
    requires k < |fills| && forall i :: k < i < |fills| ==> fills[i].symbol != fills[k].symbol
    ensures var after := FoldFills(b, fills, tolerance);
            fills[k].symbol in after.last && after.last[fills[k].symbol] == fills[k].price
  {
    hide AfterBuy, AfterSell, Gain;
    if k < |fills| - 1 {
      MarkFollowsFills(b, fills[..|fills| - 1], tolerance, k);
    }
  }

  /** The book without one of its positions. */
  function Without(b: Book, symbol: string): Book { b.(positions := b.positions - {symbol}) }

  lemma OthersCount(b: Book, c: Book, symbol: string)
    requires c.positions == b.positions && c.last - {symbol} == b.last - {symbol}
    ensures Values(c) - {symbol} == Values(Without(b, symbol)) && Exposures(c) - {symbol} == Exposures(Without(b, symbol))
  {
    var rest := Without(b, symbol);
    assert rest.positions.Keys == c.positions.Keys - {symbol};
    assert (Values(c) - {symbol}).Keys == Values(rest).Keys && (Exposures(c) - {symbol}).Keys == Exposures(rest).Keys;
    forall s | s in rest.positions
      ensures (Values(c) - {symbol})[s] == Values(rest)[s] && (Exposures(c) - {symbol})[s] == Exposures(rest)[s]
    {
      OtherMark(b, c, symbol, s);
    }
  }

  lemma OtherMark(b: Book, c: Book, symbol: string, s: string)
    requires c.positions == b.positions && c.last - {symbol} == b.last - {symbol} && s != symbol && s in b.positions
    ensures MarkOf(c, s) == MarkOf(Without(b, symbol), s)
  {
    assert (c.last - {symbol}).Keys == c.last.Keys - {symbol} && (b.last - {symbol}).Keys == b.last.Keys - {symbol};
    if s in b.last {
      assert s in c.last && (b.last - {symbol})[s] == b.last[s] && (c.last - {symbol})[s] == c.last[s];
    }
  }

  /** A marked position counts at its mark in equity, and at the mark's absolute value in exposure. */
  lemma MarkedValue(b: Book, symbol: string, price: real)
    ensures Equity(MarkPrice(b, symbol, price)) == Equity(Without(b, symbol)) + Held(b, symbol) * price
    ensures Exposure(MarkPrice(b, symbol, price)) == Exposure(Without(b, symbol)) + AbsReal(Held(b, symbol) * price)
  {
    hide Total, Values, Exposures, MarkOf, PositionOf, MarkPrice;
    var c := MarkPrice(b, symbol, price);
    MarkSets(b, symbol, price);
    OthersCount(b, c, symbol);
    OwnCounts(c, symbol);
  }

  lemma MarkSets(b: Book, symbol: string, price: real)
    ensures var c := MarkPrice(b, symbol, price);
            && MarkOf(c, symbol) == price && Held(c, symbol) == Held(b, symbol)
            && c.cash == b.cash && c.positions == b.positions && c.last - {symbol} == b.last - {symbol}
  {
    assert MarkPrice(b, symbol, price).last - {symbol} == b.last - {symbol};
  }

  /** What one position adds to the two sums. */
  lemma OwnCounts(b: Book, symbol: string)
    ensures Total(Values(b)) == Total(Values(b) - {symbol}) + Held(b, symbol) * MarkOf(b, symbol)
    ensures Total(Exposures(b)) == Total(Exposures(b) - {symbol}) + AbsReal(Held(b, symbol) * MarkOf(b, symbol))
  {
    hide Total, MarkOf;
    if symbol in b.positions {
      TotalRemove(Values(b), symbol);
      TotalRemove(Exposures(b), symbol);
    } else {
      NothingHeld(MarkOf(b, symbol));
      assert Values(b) - {symbol} == Values(b) && Exposures(b) - {symbol} == Exposures(b);
    }
  }

  lemma NothingHeld(price: real)
    ensures 0.0 * price == 0.0
  {
  }

  /** A position that was never marked counts at its entry price. */
  lemma UnmarkedValue(b: Book, symbol: string)
    requires symbol !in b.last
    ensures Equity(b) == Equity(Without(b, symbol)) + Held(b, symbol) * PositionOf(b, symbol).average
    ensures Exposure(b) == Exposure(Without(b, symbol)) + AbsReal(Held(b, symbol) * PositionOf(b, symbol).average)
  {
    hide Total, Values, Exposures, MarkOf, PositionOf;
    NeverMarked(b, symbol);
    OthersCount(b, b, symbol);
    OwnCounts(b, symbol);
  }

  lemma NeverMarked(b: Book, symbol: string)
    requires symbol !in b.last
    ensures MarkOf(b, symbol) == PositionOf(b, symbol).average
  {
  }
}
