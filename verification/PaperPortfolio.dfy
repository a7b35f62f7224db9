/** The paper portfolio: cash, positions and realised profit, moved only by fills. */
module Portfolio {
  import opened Common
  import opened Execution

  datatype Position = Position(quantity: real, average: real)

  /** The portfolio's fields as one value. */
  datatype Book = Book(initialCash: real, cash: real, positions: map<string, Position>, realized: real,
                       costs: real, last: map<string, real>)

  function Open(cash: real): Book { Book(cash, cash, map[], 0.0, 0.0, map[]) }

  function PositionOf(b: Book, symbol: string): Position {
    if symbol in b.positions then b.positions[symbol] else Position(0.0, 0.0)
  }

  function Held(b: Book, symbol: string): real { PositionOf(b, symbol).quantity }

  function AfterBuy(p: Position, f: Fill): Position {
    var quantity := p.quantity + f.quantity;
    Position(quantity, if quantity != 0.0 then (p.quantity * p.average + f.gross) / quantity else 0.0)
  }

  function Sold(p: Position, f: Fill): real { MinReal(f.quantity, p.quantity) }

  /** The profit a sale realises, after its fee. */
  function Gain(p: Position, f: Fill): real { (f.price - p.average) * Sold(p, f) - f.fees }

  /** A remainder no larger than the tolerance is dropped, and its entry price with it. */
  function AfterSell(p: Position, f: Fill, tolerance: real): Position {
    var quantity := p.quantity - Sold(p, f);
    if quantity <= tolerance then Position(0.0, 0.0) else Position(quantity, p.average)
  }

  function ApplyFill(b: Book, f: Fill, tolerance: real): Book {
    var p := PositionOf(b, f.symbol);
    var c := b.(costs := b.costs + f.fees, last := b.last[f.symbol := f.price]);
    match f.side
    case Buy =>
      c.(positions := b.positions[f.symbol := AfterBuy(p, f)], cash := b.cash - (f.gross + f.fees))
    case Sell =>
      c.(positions := b.positions[f.symbol := AfterSell(p, f, tolerance)],
         realized := b.realized + Gain(p, f),
         cash := b.cash + (f.gross - f.fees))
  }

  function MarkPrice(b: Book, symbol: string, price: real): Book { b.(last := b.last[symbol := price]) }

  // ----- Valuation: sums over the positions -----

  ghost function Total(values: map<string, real>): real
    decreases |values|
  {
    if values == map[] then 0.0
    else
      assert exists k :: k in values;
      var k :| k in values;
      TotalShrinks(values, k);
      values[k] + Total(values - {k})
  }

  lemma TotalShrinks(values: map<string, real>, k: string)
    requires k in values
    ensures |values - {k}| < |values|
  {
    assert (values - {k}).Keys == values.Keys - {k};
  }

  /** The order in which the sum visits the symbols does not matter. */
  lemma {:induction false} TotalRemove(values: map<string, real>, k: string)
    requires k in values
    ensures Total(values) == values[k] + Total(values - {k})
    decreases |values|
  {
    assert values != map[];
    var first :| first in values && Total(values) == values[first] + Total(values - {first});
    if first != k {
      TotalShrinks(values, first);
      TotalShrinks(values, k);
      TotalRemove(values - {first}, k);
      TotalRemove(values - {k}, first);
      assert values - {first} - {k} == values - {k} - {first};
    }
  }

  lemma TotalSet(values: map<string, real>, k: string, v: real)
    ensures Total(values[k := v]) == v + Total(values - {k})
    ensures Total(values) == (if k in values then values[k] else 0.0) + Total(values - {k})
  {
    TotalRemove(values[k := v], k);
    assert values[k := v] - {k} == values - {k};
    if k in values {
      TotalRemove(values, k);
    } else {
      assert values - {k} == values;
    }
  }

  lemma {:induction false} TotalAdds(xs: map<string, real>, ys: map<string, real>, zs: map<string, real>)
    requires xs.Keys == ys.Keys == zs.Keys
    requires forall k :: k in xs ==> zs[k] == xs[k] + ys[k]
    ensures Total(zs) == Total(xs) + Total(ys)
    decreases |zs|
  {
    if zs != map[] {
      var k :| k in zs;
      TotalRemove(xs, k);
      TotalRemove(ys, k);
      TotalRemove(zs, k);
      TotalShrinks(zs, k);
      TotalAdds(xs - {k}, ys - {k}, zs - {k});
    } else {
      assert xs == map[] && ys == map[];
    }
  }

  function MarkOf(b: Book, symbol: string): real {
    if symbol in b.last then b.last[symbol] else PositionOf(b, symbol).average
  }

  function EntryCost(p: Position): real { p.quantity * p.average }

  function Costs(positions: map<string, Position>): map<string, real> {
    map s | s in positions :: EntryCost(positions[s])
  }

  function Values(b: Book): map<string, real> {
    map s | s in b.positions :: b.positions[s].quantity * MarkOf(b, s)
  }

  function Gains(b: Book): map<string, real> {
    map s | s in b.positions :: (MarkOf(b, s) - b.positions[s].average) * b.positions[s].quantity
  }

  function Exposures(b: Book): map<string, real> {
    map s | s in b.positions :: AbsReal(b.positions[s].quantity * MarkOf(b, s))
  }

  ghost function CostBasis(b: Book): real { Total(Costs(b.positions)) }

  ghost function Equity(b: Book): real { b.cash + Total(Values(b)) }

  ghost function Unrealized(b: Book): real { Total(Gains(b)) }

  ghost function Exposure(b: Book): real { Total(Exposures(b)) }

  /** Equity is what was paid for the positions plus what they have gained since. */
  lemma EquitySplits(b: Book)
    ensures Equity(b) == b.cash + CostBasis(b) + Unrealized(b)
  {
    TotalAdds(Costs(b.positions), Gains(b), Values(b));
  }

  // ----- The accounting identity over any sequence of fills -----

  function FoldFills(b: Book, fills: seq<Fill>, tolerance: real): Book
  {
    if fills == [] then b else ApplyFill(FoldFills(b, fills[..|fills| - 1], tolerance), fills[|fills| - 1], tolerance)
  }

  function FeesOn(fills: seq<Fill>): real
  {
    if fills == [] then 0.0 else FeesOn(fills[..|fills| - 1]) + fills[|fills| - 1].fees
  }

  function BuyFees(fills: seq<Fill>): real
  {
    if fills == [] then 0.0
    else BuyFees(fills[..|fills| - 1]) + if fills[|fills| - 1].side == Buy then fills[|fills| - 1].fees else 0.0
  }

  /** Money credited for quantity that was not held: the whole gross is credited, the quantity is clipped. */
  function Oversold(b: Book, f: Fill): real {
    if f.side == Sell then f.gross - f.price * Sold(PositionOf(b, f.symbol), f) else 0.0
  }

  /** The entry cost of a remainder that the tolerance drops. */
  function DroppedCost(b: Book, f: Fill, tolerance: real): real {
    var p := PositionOf(b, f.symbol);
    if f.side == Sell && p.quantity - Sold(p, f) <= tolerance then (p.quantity - Sold(p, f)) * p.average else 0.0
  }

  function Phantom(b: Book, fills: seq<Fill>, tolerance: real): real
  {
    if fills == [] then 0.0
    else
      var front := fills[..|fills| - 1];
      Phantom(b, front, tolerance) + Oversold(FoldFills(b, front, tolerance), fills[|fills| - 1])
  }

  function Dropped(b: Book, fills: seq<Fill>, tolerance: real): real
  {
    if fills == [] then 0.0
    else
      var front := fills[..|fills| - 1];
      Dropped(b, front, tolerance) + DroppedCost(FoldFills(b, front, tolerance), fills[|fills| - 1], tolerance)
  }

  predicate LongOnly(b: Book) { forall s :: s in b.positions ==> b.positions[s].quantity >= 0.0 }

  predicate Positive(fills: seq<Fill>) { forall i :: 0 <= i < |fills| ==> fills[i].quantity > 0.0 }

  /** One fill moves cash plus cost basis by exactly its realised profit, buy fee, overselling and dropped cost. */
  lemma FillBalances(b: Book, f: Fill, tolerance: real)
    requires LongOnly(b) && f.quantity > 0.0 && tolerance >= 0.0
    ensures var c := ApplyFill(b, f, tolerance);
            && LongOnly(c)
            && c.cash + CostBasis(c) - c.realized
               == b.cash + CostBasis(b) - b.realized - (if f.side == Buy then f.fees else 0.0)
                  + Oversold(b, f) - DroppedCost(b, f, tolerance)
            && c.costs == b.costs + f.fees
  {
    hide EntryCost, Total, Costs, AfterBuy, AfterSell, Sold, PositionOf;
    var p := PositionOf(b, f.symbol);
    HeldIsNonNegative(b, f.symbol);
    if f.side == Buy {
      BuyCost(p, f);
      CostMoves(b, f.symbol, AfterBuy(p, f));
    } else {
      SellCost(p, f, tolerance);
      CostMoves(b, f.symbol, AfterSell(p, f, tolerance));
    }
  }

  lemma HeldIsNonNegative(b: Book, symbol: string)
    requires LongOnly(b)
    ensures PositionOf(b, symbol).quantity >= 0.0
  {
  }

  /** Replacing one position moves the cost basis by the difference of the two entry costs. */
  lemma CostMoves(b: Book, s: string, q: Position)
    ensures Total(Costs(b.positions[s := q])) == CostBasis(b) - EntryCost(PositionOf(b, s)) + EntryCost(q)
  {
    NoCost();
    hide EntryCost, Total, Costs;
    CostsSet(b.positions, s, q);
    TotalSet(Costs(b.positions), s, EntryCost(q));
  }

  lemma NoCost()
    ensures EntryCost(Position(0.0, 0.0)) == 0.0
  {
  }

  lemma CostsSet(positions: map<string, Position>, s: string, p: Position)
    ensures Costs(positions[s := p]) == Costs(positions)[s := EntryCost(p)]
    ensures s in positions ==> s in Costs(positions) && Costs(positions)[s] == EntryCost(positions[s])
    ensures s !in positions ==> s !in Costs(positions)
  {
    hide EntryCost;
  }

  lemma BuyCost(p: Position, f: Fill)
    requires p.quantity >= 0.0 && f.quantity > 0.0
    ensures EntryCost(AfterBuy(p, f)) == EntryCost(p) + f.gross && AfterBuy(p, f).quantity >= 0.0
  {
    WeightedMean(p.quantity * p.average + f.gross, p.quantity + f.quantity);
  }

  lemma SellCost(p: Position, f: Fill, tolerance: real)
    requires p.quantity >= 0.0 && f.quantity > 0.0
    ensures AfterSell(p, f, tolerance).quantity >= 0.0
    ensures var sold := Sold(p, f);
            var dropped := if p.quantity - sold <= tolerance then (p.quantity - sold) * p.average else 0.0;
            && EntryCost(AfterSell(p, f, tolerance)) == EntryCost(p) - sold * p.average - dropped
            && (f.price - p.average) * sold == f.price * sold - sold * p.average
  {
    assert (p.quantity - Sold(p, f)) * p.average == p.quantity * p.average - Sold(p, f) * p.average;
  }

  /**
    For every sequence of fills: cash plus cost basis is the opening cash plus realised profit less the fees on buys,
    plus what overselling credited, less what the tolerance dropped; and costs are the sum of all fees.
   */
  lemma {:induction false} AccountingIdentity(cash: real, fills: seq<Fill>, tolerance: real)
    requires Positive(fills) && tolerance >= 0.0
    ensures var b := FoldFills(Open(cash), fills, tolerance);
            var off := Phantom(Open(cash), fills, tolerance) - Dropped(Open(cash), fills, tolerance);
            && LongOnly(b)
            && b.costs == FeesOn(fills)
            && b.cash + CostBasis(b) == cash + b.realized - BuyFees(fills) + off
            && Equity(b) == cash + b.realized + Unrealized(b) - BuyFees(fills) + off
  {
    hide ApplyFill, Oversold, DroppedCost;
    EquitySplits(FoldFills(Open(cash), fills, tolerance));
    if fills == [] {
      assert Costs(Open(cash).positions) == map[];
    } else {
      var front := fills[..|fills| - 1];
      AccountingIdentity(cash, front, tolerance);
      FillBalances(FoldFills(Open(cash), front, tolerance), fills[|fills| - 1], tolerance);
    }
  }

  /** Every sale is of quantity actually held. */
  predicate Covered(b: Book, fills: seq<Fill>, tolerance: real) {
    forall i :: 0 <= i < |fills| && fills[i].side == Sell ==>
      fills[i].quantity <= Held(FoldFills(b, fills[..i], tolerance), fills[i].symbol)
  }

  predicate Priced(fills: seq<Fill>) {
    forall i :: 0 <= i < |fills| ==> fills[i].price > 0.0 && fills[i].gross == fills[i].price * fills[i].quantity
  }

  lemma OversoldSign(b: Book, f: Fill)
    requires f.price > 0.0 && f.gross == f.price * f.quantity
    ensures Oversold(b, f) >= 0.0
    ensures Oversold(b, f) == 0.0 <==> (f.side == Sell ==> f.quantity <= Held(b, f.symbol))
  {
    if f.side == Sell {
      var excess := f.quantity - Sold(PositionOf(b, f.symbol), f);
      assert Oversold(b, f) == f.price * excess;
      if excess > 0.0 {
        assert f.price * excess > 0.0;
      }
    }
  }

  lemma {:induction false} PhantomSign(b: Book, fills: seq<Fill>, tolerance: real)
    requires Priced(fills)
    ensures Phantom(b, fills, tolerance) >= 0.0
    ensures Phantom(b, fills, tolerance) == 0.0 <==> Covered(b, fills, tolerance)
  {
    hide ApplyFill, Oversold, Held, Covered;
    if fills != [] {
      var front, last := fills[..|fills| - 1], fills[|fills| - 1];
      PhantomSign(b, front, tolerance);
      OversoldSign(FoldFills(b, front, tolerance), last);
      CoveredSplits(b, fills, tolerance);
    } else {
      CoveredWhenEmpty(b, fills, tolerance);
    }
  }

  lemma CoveredWhenEmpty(b: Book, fills: seq<Fill>, tolerance: real)
    requires fills == []
    ensures Covered(b, fills, tolerance)
  {
  }

  lemma CoveredSplits(b: Book, fills: seq<Fill>, tolerance: real)
    requires fills != []
    ensures var n := |fills| - 1;
            Covered(b, fills, tolerance) <==>
            && Covered(b, fills[..n], tolerance)
            && (fills[n].side == Sell ==>
                  fills[n].quantity <= Held(FoldFills(b, fills[..n], tolerance), fills[n].symbol))
  {
    hide FoldFills, Held;
    var front := fills[..|fills| - 1];
    assert forall i :: 0 <= i < |front| ==> front[..i] == fills[..i] && front[i] == fills[i];
  }

  lemma {:induction false} NothingDropped(b: Book, fills: seq<Fill>)
    requires LongOnly(b) && Positive(fills)
    ensures Dropped(b, fills, 0.0) == 0.0
    ensures LongOnly(FoldFills(b, fills, 0.0))
  {
    hide ApplyFill, DroppedCost;
    if fills != [] {
      var front := fills[..|fills| - 1];
      NothingDropped(b, front);
      FillBalances(FoldFills(b, front, 0.0), fills[|fills| - 1], 0.0);
      NothingLeftToDrop(FoldFills(b, front, 0.0), fills[|fills| - 1]);
    }
  }

  lemma NothingLeftToDrop(b: Book, f: Fill)
    requires LongOnly(b) && f.quantity > 0.0
    ensures DroppedCost(b, f, 0.0) == 0.0
  {
  }

  /** With no tolerance, the books balance exactly when every sale is covered. */
  lemma {:induction false} BalancedIffCovered(cash: real, fills: seq<Fill>)
    requires Positive(fills) && Priced(fills)
    ensures var b := FoldFills(Open(cash), fills, 0.0);
            b.cash + CostBasis(b) == cash + b.realized - BuyFees(fills) <==> Covered(Open(cash), fills, 0.0)
  {
    AccountingIdentity(cash, fills, 0.0);
    NothingDropped(Open(cash), fills);
    PhantomSign(Open(cash), fills, 0.0);
  }
}
