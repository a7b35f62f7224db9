/** Drawdown: the whole-series form, the charting loop, and what both mean; and the stress paths' variant of it. */
module Drawdown {
  import opened Common

  /** The running maximum at the end of a series. */
  function Peak(es: seq<real>): real
    requires es != []
  {
    var n := |es| - 1;
    if n == 0 then es[0] else MaxReal(Peak(es[..n]), es[n])
  }

  function Least(xs: seq<real>): real
    requires xs != []
  {
    var n := |xs| - 1;
    if n == 0 then xs[0] else MinReal(Least(xs[..n]), xs[n])
  }

  /** No running maximum is zero, so every division below is defined. */
  predicate Divisible(es: seq<real>) { forall k :: 0 < k <= |es| ==> Peak(es[..k]) != 0.0 }

  /** Each value's fall from the running maximum. */
  function Falls(es: seq<real>): (r: seq<real>)
    requires Divisible(es)
    ensures |r| == |es|
  {
    if es == [] then []
    else
      var n := |es| - 1;
      assert es[..n + 1] == es;
      assert forall k :: 0 < k <= n ==> es[..n][..k] == es[..k];
      Falls(es[..n]) + [es[n] / Peak(es) - 1.0]
  }

  function MaxDrawdown(es: seq<real>): real
    requires Divisible(es)
  {
    if es == [] then 0.0 else Least(Falls(es))
  }

  // ----- Running maxima and minima -----

  lemma {:induction false} PeakIsGreatest(es: seq<real>)
    requires es != []
    ensures Peak(es) in es && forall i :: 0 <= i < |es| ==> es[i] <= Peak(es)
  {
    if |es| > 1 {
      PeakIsGreatest(es[..|es| - 1]);
    }
  }

  lemma {:induction false} LeastIsLeast(xs: seq<real>)
    requires xs != []
    ensures Least(xs) in xs && forall i :: 0 <= i < |xs| ==> Least(xs) <= xs[i]
  {
    if |xs| > 1 {
      LeastIsLeast(xs[..|xs| - 1]);
    }
  }

  lemma {:induction false} FallAt(es: seq<real>, k: nat)
    requires Divisible(es) && k < |es|
    ensures Peak(es[..k + 1]) != 0.0 && Falls(es)[k] == es[k] / Peak(es[..k + 1]) - 1.0
  {
    var n := |es| - 1;
    if k == n {
      assert es[..n + 1] == es;
    } else {
      assert forall j :: 0 < j <= n ==> es[..n][..j] == es[..j];
      FallAt(es[..n], k);
      assert es[..n][..k + 1] == es[..k + 1];
    }
  }

  /** An equity series that starts above zero and never falls below it. */
  predicate Solvent(es: seq<real>) {
    es != [] && es[0] > 0.0 && forall i :: 0 <= i < |es| ==> es[i] >= 0.0
  }

  lemma StartsAboveZero(es: seq<real>)
    requires es != [] ==> es[0] > 0.0
    ensures Divisible(es) && forall k :: 0 < k <= |es| ==> Peak(es[..k]) > 0.0
  {
    forall k | 0 < k <= |es|
      ensures Peak(es[..k]) > 0.0
    {
      PeakIsGreatest(es[..k]);
      assert es[..k][0] == es[0];
    }
  }

  // ----- What the drawdown is -----

  /** The return from holding between two rows. */
  function Between(es: seq<real>, i: nat, j: nat): real
    requires i < |es| && j < |es| && es[i] != 0.0
  {
    es[j] / es[i] - 1.0
  }

  lemma LowerPeakFallsLess(value: real, start: real, peak: real)
    requires value >= 0.0 && 0.0 < start <= peak
    ensures value / peak <= value / start
  {
    var q := value / start;
    assert value == q * start <= q * peak;
  }

  lemma FallIsBounded(value: real, peak: real)
    requires 0.0 <= value <= peak && peak > 0.0
    ensures -1.0 <= value / peak - 1.0 <= 0.0 && (value > 0.0 ==> value / peak - 1.0 > -1.0)
  {
  }

  /** Each row's fall is reached from an earlier row, and no earlier purchase has done worse by that row. */
  lemma FallIsWorst(es: seq<real>, j: nat)
    requires Solvent(es) && j < |es| && Divisible(es)
    ensures exists i :: 0 <= i <= j && es[i] > 0.0 && Between(es, i, j) == Falls(es)[j]
    ensures forall i :: 0 <= i <= j && es[i] > 0.0 ==> Falls(es)[j] <= Between(es, i, j)
    ensures -1.0 <= Falls(es)[j] <= 0.0 && (es[j] > 0.0 ==> Falls(es)[j] > -1.0)
  {
    StartsAboveZero(es);
    FallAt(es, j);
    var upTo := es[..j + 1];
    PeakIsGreatest(upTo);
    var i :| 0 <= i < |upTo| && upTo[i] == Peak(upTo);
    assert upTo[i] == es[i] && upTo[j] == es[j];
    hide Peak, Falls;
    FallIsBounded(es[j], Peak(upTo));
    forall i | 0 <= i <= j && es[i] > 0.0
      ensures Falls(es)[j] <= Between(es, i, j)
    {
      assert upTo[i] == es[i];
      LowerPeakFallsLess(es[j], es[i], Peak(upTo));
    }
  }

  /** The drawdown is the worst return of any purchase held to any later row, and lies above -1 while equity does above 0. */
  lemma DrawdownIsWorstHolding(es: seq<real>)
    requires Solvent(es) && Divisible(es)
    ensures exists i, j :: 0 <= i <= j < |es| && es[i] > 0.0 && Between(es, i, j) == MaxDrawdown(es)
    ensures forall i, j :: 0 <= i <= j < |es| && es[i] > 0.0 ==> MaxDrawdown(es) <= Between(es, i, j)
    ensures -1.0 <= MaxDrawdown(es) <= 0.0
    ensures (forall i :: 0 <= i < |es| ==> es[i] > 0.0) ==> MaxDrawdown(es) > -1.0
  {
    LeastIsLeast(Falls(es));
    forall i, j | 0 <= i <= j < |es| && es[i] > 0.0
      ensures MaxDrawdown(es) <= Between(es, i, j)
    {
      FallIsWorst(es, j);
    }
    var j :| 0 <= j < |es| && Falls(es)[j] == MaxDrawdown(es);
    FallIsWorst(es, j);
    hide Falls, Between;
  }

  // ----- The charting loop -----

  /** The drawdown column of the charts: the running maximum starts from zero, and a zero maximum charts as no fall. */
  method EquityCharts(equity: seq<real>) returns (drawdown: seq<real>)
    ensures |drawdown| == |equity|
    ensures forall k :: 0 <= k < |equity| ==>
              drawdown[k] == if Peak(equity[..k + 1]) <= 0.0 then 0.0 else equity[k] / Peak(equity[..k + 1]) - 1.0
    ensures equity != [] && equity[0] > 0.0 ==>
              Divisible(equity) && drawdown == Falls(equity) && Least(drawdown) == MaxDrawdown(equity)
  {
    var runningMax := 0.0;
    drawdown := [];
    for k := 0 to |equity|
      invariant |drawdown| == k
      invariant runningMax == if k == 0 then 0.0 else MaxReal(0.0, Peak(equity[..k]))
      invariant forall j :: 0 <= j < k ==>
                  drawdown[j] == if Peak(equity[..j + 1]) <= 0.0 then 0.0 else equity[j] / Peak(equity[..j + 1]) - 1.0
    {
      assert equity[..k + 1][..k] == equity[..k];
      runningMax := MaxReal(runningMax, equity[k]);
      var fall := if runningMax != 0.0 then equity[k] / runningMax - 1.0 else 0.0;
      drawdown := drawdown + [fall];
    }
    if equity != [] && equity[0] > 0.0 {
      StartsAboveZero(equity);
      forall k | 0 <= k < |equity|
        ensures drawdown[k] == Falls(equity)[k]
      {
        FallAt(equity, k);
      }
      assert drawdown == Falls(equity);
    }
  }

  // ----- Stress paths -----

  function Grown(base: real, gain: real): (r: real)
    ensures base > 0.0 && gain > -1.0 ==> r > 0.0
  {
    base * (1.0 + gain)
  }

  /** Wealth after each return, the start not listed. */
  function Wealth(gains: seq<real>): (r: seq<real>)
    ensures |r| == |gains|
  {
    if gains == [] then []
    else
      var before := Wealth(gains[..|gains| - 1]);
      before + [Grown(if before == [] then 1.0 else before[|before| - 1], gains[|gains| - 1])]
  }

  /** Wealth compounds: each value is the one before, or one at first, and its return's share of it. */
  lemma {:induction false} WealthGrows(gains: seq<real>, k: nat)
    requires k < |gains|
    ensures var before := if k == 0 then 1.0 else Wealth(gains)[k - 1];
            Wealth(gains)[k] == before + before * gains[k]
  {
    if k < |gains| - 1 {
      WealthGrows(gains[..|gains| - 1], k);
    }
  }

  lemma {:induction false} WealthStaysPositive(gains: seq<real>)
    requires forall i :: 0 <= i < |gains| ==> gains[i] > -1.0
    ensures forall i :: 0 <= i < |gains| ==> Wealth(gains)[i] > 0.0
  {
    hide Grown;
    if gains != [] {
      WealthStaysPositive(gains[..|gains| - 1]);
    }
  }

  /** The drawdown a stress path reports: that of the wealth after each return. */
  function PathDrawdown(gains: seq<real>): real
    requires Divisible(Wealth(gains))
  {
    MaxDrawdown(Wealth(gains))
  }

  lemma {:induction false} FirstWealth(gains: seq<real>)
    requires gains != []
    ensures Wealth(gains)[0] == 1.0 + gains[0]
  {
    if |gains| > 1 {
      FirstWealth(gains[..|gains| - 1]);
    }
  }

  ghost predicate WorstHolding(es: seq<real>, d: real) {
    && (forall i :: 0 <= i < |es| ==> es[i] > 0.0)
    && (exists i, j :: 0 <= i <= j < |es| && Between(es, i, j) == d)
    && (forall i, j :: 0 <= i <= j < |es| ==> d <= Between(es, i, j))
  }

  lemma PositiveDrawdown(es: seq<real>)
    requires es != [] && forall i :: 0 <= i < |es| ==> es[i] > 0.0
    ensures Divisible(es) && WorstHolding(es, MaxDrawdown(es))
  {
    hide Divisible, MaxDrawdown, Between;
    StartsAboveZero(es);
    DrawdownIsWorstHolding(es);
  }

  lemma Solvency(gains: seq<real>)
    requires gains != [] && forall i :: 0 <= i < |gains| ==> gains[i] > -1.0
    ensures Divisible(Wealth(gains)) && WorstHolding(Wealth(gains), MaxDrawdown(Wealth(gains)))
    ensures var whole := [1.0] + Wealth(gains); Divisible(whole) && WorstHolding(whole, MaxDrawdown(whole))
  {
    hide Wealth, Divisible, WorstHolding, MaxDrawdown;
    WealthStaysPositive(gains);
    PositiveDrawdown(Wealth(gains));
    PositiveDrawdown([1.0] + Wealth(gains));
  }

  /** Some purchase and later sale on the path keep no more than this share of what was paid. */
  ghost predicate HoldingKeepsAtMost(path: seq<real>, share: real) {
    exists p, q :: 0 <= p <= q < |path| && path[p] > 0.0 && path[q] / path[p] <= share
  }

  /**
    A stress path leaves its starting wealth out, so it misses falls below it. It reports the drawdown of the whole
    path exactly when every later wealth is at least the share kept by some purchase after the start.
   */
  lemma {:induction false} StartIsLeftOut(gains: seq<real>)
    requires gains != [] && forall i :: 0 <= i < |gains| ==> gains[i] > -1.0
    requires Divisible(Wealth(gains)) && Divisible([1.0] + Wealth(gains))
    ensures MaxDrawdown([1.0] + Wealth(gains)) <= PathDrawdown(gains)
    ensures MaxDrawdown([1.0] + Wealth(gains)) == PathDrawdown(gains) <==>
            forall j :: 0 <= j < |gains| ==>
              HoldingKeepsAtMost(Wealth(gains), Wealth(gains)[j])
    ensures gains[0] >= 0.0 ==> MaxDrawdown([1.0] + Wealth(gains)) == PathDrawdown(gains)
    ensures |gains| == 1 && gains[0] < 0.0 ==>
              PathDrawdown(gains) == 0.0 && MaxDrawdown([1.0] + Wealth(gains)) == gains[0]
  {
    hide Wealth, Divisible, MaxDrawdown, WorstHolding, HoldingKeepsAtMost;
    Solvency(gains);
    FirstWealth(gains);
    WholeAgainstPath(Wealth(gains), [1.0] + Wealth(gains), PathDrawdown(gains), MaxDrawdown([1.0] + Wealth(gains)));
    DeepestKeptShare(Wealth(gains), PathDrawdown(gains));
  }

  lemma DeepestKeptShare(path: seq<real>, d: real)
    requires path != [] && WorstHolding(path, d)
    ensures (forall j :: 0 <= j < |path| ==> d <= path[j] - 1.0) <==>
            forall j :: 0 <= j < |path| ==> HoldingKeepsAtMost(path, path[j])
  {
    hide Between;
    var s, t :| 0 <= s <= t < |path| && Between(path, s, t) == d;
    KeptShare(path, s, t);
    assert path[s] > 0.0;
    forall j | 0 <= j < |path| && HoldingKeepsAtMost(path, path[j])
      ensures d <= path[j] - 1.0
    {
      var p, q :| 0 <= p <= q < |path| && path[p] > 0.0 && path[q] / path[p] <= path[j];
      KeptShare(path, p, q);
    }
  }

  lemma KeptShare(path: seq<real>, p: nat, q: nat)
    requires p < |path| && q < |path| && path[p] != 0.0
    ensures Between(path, p, q) == path[q] / path[p] - 1.0
  {
  }

  lemma Shifted(path: seq<real>, whole: seq<real>)
    requires path != [] && whole == [1.0] + path && forall i :: 0 <= i < |path| ==> path[i] > 0.0
    ensures forall i, j :: 0 <= i <= j < |path| ==> Between(whole, i + 1, j + 1) == Between(path, i, j)
    ensures forall j :: 0 <= j < |path| ==> Between(whole, 0, j + 1) == path[j] - 1.0
    ensures Between(whole, 0, 0) == 0.0 && Between(path, 0, 0) == 0.0
    ensures forall j :: 0 <= j < |path| && path[0] >= 1.0 ==> Between(path, 0, j) <= path[j] - 1.0
  {
    forall j | 0 <= j < |path| && path[0] >= 1.0
      ensures Between(path, 0, j) <= path[j] - 1.0
    {
      LowerPeakFallsLess(path[j], 1.0, path[0]);
    }
  }

  lemma WholeAgainstPath(path: seq<real>, whole: seq<real>, d: real, w: real)
    requires path != [] && whole == [1.0] + path && WorstHolding(path, d) && WorstHolding(whole, w)
    ensures w <= d
    ensures w == d <==> forall j :: 0 <= j < |path| ==> d <= path[j] - 1.0
    ensures path[0] >= 1.0 ==> w == d
    ensures |path| == 1 ==> d == 0.0 && w == MinReal(0.0, path[0] - 1.0)
  {
    hide Between;
    Shifted(path, whole);
    var i, j :| 0 <= i <= j < |path| && Between(path, i, j) == d;
    assert w <= Between(whole, i + 1, j + 1) == d;
    forall j | 0 <= j < |path|
      ensures w <= path[j] - 1.0
    {
      assert w <= Between(whole, 0, j + 1);
    }
    var p, q :| 0 <= p <= q < |whole| && Between(whole, p, q) == w;
    if p > 0 {
      assert d <= Between(path, p - 1, q - 1) == Between(whole, p, q);
    } else if q > 0 {
      assert Between(whole, 0, q - 1 + 1) == path[q - 1] - 1.0;
    } else {
      assert d <= Between(path, 0, 0);
    }
    assert path[0] >= 1.0 ==> forall j :: 0 <= j < |path| ==> d <= Between(path, 0, j);
  }
}
