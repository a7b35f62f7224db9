/** Columns of returns whose deviations and means are known, and the shares of weights that follow from them. */
module PolicyColumns {
  import opened Common
  import opened Rebalance
  import CorrelationStress

  // ----- The sample deviation -----

  /** The sample deviation: the non-negative root of the sample variance. */
  ghost predicate IsDeviation(deviation: seq<real> -> real) {
    forall xs :: |xs| >= 2 ==>
      deviation(xs) >= 0.0 && deviation(xs) * deviation(xs) == CorrelationStress.Variance(xs)
  }

  lemma RootOf(deviation: seq<real> -> real, xs: seq<real>)
    requires IsDeviation(deviation) && |xs| >= 2
    ensures deviation(xs) >= 0.0 && deviation(xs) * deviation(xs) == CorrelationStress.Variance(xs)
  {
  }

  // ----- A spike and a ramp -----

  function Spike(n: nat): (xs: seq<real>)
    ensures |xs| == n
  {
    seq(n, i requires 0 <= i < n => if i < n - 1 then 0.0 else n as real)
  }

  function Ramp(n: nat): (xs: seq<real>)
    ensures |xs| == n
  {
    seq(n, i requires 0 <= i < n => i as real)
  }

  lemma {:induction false} EqualSquares(xs: seq<real>, c: real)
    requires forall i :: 0 <= i < |xs| ==> xs[i] == c
    ensures CorrelationStress.Dot(xs, xs) == |xs| as real * (c * c)
  {
    if xs != [] {
      EqualSquares(xs[..|xs| - 1], c);
    }
  }

  /** A spike of n after n - 1 zeros has mean one and sample variance n. */
  lemma SpikeVariance(n: nat)
    requires n >= 2
    ensures CorrelationStress.Variance(Spike(n)) == n as real
  {
    hide Sum, Mean, CorrelationStress.Dot;
    var top := n as real;
    SpikeMean(n);
    var away := CorrelationStress.Centered(Spike(n));
    assert away == seq(n, i requires 0 <= i < n => if i < n - 1 then -1.0 else top - 1.0);
    AwaySquares(away, top);
    SpikeSquares(top);
  }

  lemma SpikeMean(n: nat)
    requires n >= 2
    ensures Mean(Spike(n)) == 1.0
  {
    hide Sum;
    var xs, top := Spike(n), n as real;
    SumOfEqual(xs[..n - 1], 0.0);
    TimesNothing(|xs[..n - 1]| as real);
    SumAppend(xs[..n - 1], top);
    assert xs == xs[..n - 1] + [top];
    assert Sum(xs) == top;
    WholeShare(top);
  }

  lemma WholeShare(x: real)
    requires x > 0.0
    ensures x / x == 1.0
  {
  }

  lemma TimesNothing(x: real)
    ensures x * 0.0 == 0.0
  {
  }

  lemma AwaySquares(away: seq<real>, top: real)
    requires |away| >= 2 && away[|away| - 1] == top - 1.0 && |away| as real == top
    requires forall i :: 0 <= i < |away| - 1 ==> away[i] == -1.0
    ensures CorrelationStress.Dot(away, away) == (top - 1.0) + (top - 1.0) * (top - 1.0)
  {
    EqualSquares(away[..|away| - 1], -1.0);
  }

  lemma SpikeSquares(n: real)
    requires n > 1.0
    ensures ((n - 1.0) + (n - 1.0) * (n - 1.0)) / (n - 1.0) == n
  {
    var m := n - 1.0;
    assert m + m * m == n * m;
    assert n * m / m == n;
  }

  lemma {:induction false} SquareWithin(u: seq<real>, i: nat)
    requires i < |u|
    ensures CorrelationStress.Dot(u, u) >= u[i] * u[i]
  {
    var n := |u| - 1;
    CorrelationStress.DotSquareNonNegative(u[..n]);
    if i < n {
      SquareWithin(u[..n], i);
    }
  }

  lemma RampVaries(n: nat)
    requires n >= 2
    ensures CorrelationStress.Variance(Ramp(n)) > 0.0
  {
    hide Mean, CorrelationStress.Dot;
    var away := CorrelationStress.Centered(Ramp(n));
    SquareWithin(away, 0);
    SquareWithin(away, 1);
    assert away[1] == away[0] + 1.0;
    SomeSquare(away[0]);
    PositiveQuotient(CorrelationStress.Dot(away, away), (n - 1) as real);
  }

  lemma SomeSquare(x: real)
    ensures x * x > 0.0 || (x + 1.0) * (x + 1.0) > 0.0
  {
    if x != 0.0 { NoProduct(x, x); }
  }

  lemma NoProduct(a: real, b: real)
    requires b != 0.0
    ensures a * b == 0.0 ==> a == 0.0
  {
  }

  // ----- Deviations of flat, jumping and falling columns -----

  lemma FlatDeviation(deviation: seq<real> -> real, xs: seq<real>, n: real)
    requires IsDeviation(deviation) && |xs| >= 2 && forall i :: 0 <= i < |xs| ==> xs[i] == n
    ensures FlooredInverse(deviation(xs)) == 100000000.0
  {
    hide CorrelationStress.Variance;
    CorrelationStress.FlatVariance(xs, n);
    RootOf(deviation, xs);
    CorrelationStress.SquareOrder(deviation(xs), 0.0);
  }

  /** The first strategy's whole deviation: at least the jump, and in proportion to it. */
  lemma JumpDeviation(deviation: seq<real> -> real, xs: seq<real>, ys: seq<real>, n: real, jump: real)
    requires IsDeviation(deviation) && |xs| == |ys| >= 2 && jump > 0.0
    requires forall i :: 0 <= i < |xs| ==> xs[i] == if i < |xs| - 1 then n else n + jump * |xs| as real
    requires forall i :: 0 <= i < |ys| ==> ys[i] == if i < |ys| - 1 then n else n + 2.0 * jump * |ys| as real
    ensures deviation(xs) >= jump && deviation(ys) == 2.0 * deviation(xs)
  {
    hide CorrelationStress.Variance, IsDeviation;
    var rows := |xs|;
    SpikeVariance(rows);
    forall i | 0 <= i < rows
      ensures xs[i] == jump * Spike(rows)[i] + n && ys[i] == 2.0 * jump * Spike(rows)[i] + n
    {
    }
    CorrelationStress.VarianceOfAffine(Spike(rows), jump, n, xs);
    CorrelationStress.VarianceOfAffine(Spike(rows), 2.0 * jump, n, ys);
    RootOf(deviation, xs);
    RootOf(deviation, ys);
    DoubledRoot(deviation(xs), deviation(ys), jump, rows as real);
  }

  lemma DoubledRoot(d: real, e: real, w: real, v: real)
    requires d >= 0.0 && e >= 0.0 && w > 0.0 && v >= 1.0
    requires d * d == w * w * v && e * e == 2.0 * w * (2.0 * w) * v
    ensures d >= w && e == 2.0 * d
  {
    var square := w * w;
    CorrelationStress.Monotone(1.0, v, square);
    CorrelationStress.SquareOrder(w, d);
    assert e * e == 4.0 * (square * v) == (2.0 * d) * (2.0 * d);
    CorrelationStress.SquareOrder(e, 2.0 * d);
    CorrelationStress.SquareOrder(2.0 * d, e);
  }

  /** Every other strategy's deviation over some rows: as large as wanted when it falls steeply. */
  lemma FallDeviation(deviation: seq<real> -> real, xs: seq<real>, from: int, n: real, least: real, v: real)
    requires IsDeviation(deviation) && |xs| >= 2 && least > 0.0
    requires forall i :: 0 <= i < |xs| ==> xs[i] == -n * (from + i) as real
    requires v == CorrelationStress.Variance(Ramp(|xs|)) && v > 0.0 && n == least + least / v
    ensures deviation(xs) >= least
  {
    hide CorrelationStress.Variance, IsDeviation;
    var rows := |xs|;
    forall i | 0 <= i < rows
      ensures xs[i] == -n * Ramp(rows)[i] + -n * from as real
    {
      Distributed(-n, from as real, i as real);
      assert (from + i) as real == from as real + i as real;
    }
    CorrelationStress.VarianceOfAffine(Ramp(rows), -n, -n * from as real, xs);
    RootOf(deviation, xs);
    SteepEnough(deviation(xs), n, v, least);
  }

  lemma Distributed(n: real, a: real, b: real)
    ensures n * (a + b) == n * b + n * a
  {
  }

  lemma SteepEnough(d: real, n: real, v: real, least: real)
    requires d >= 0.0 && v > 0.0 && least > 0.0 && n == least + least / v && d * d == -n * -n * v
    ensures d >= least
  {
    var more := least / v;
    assert more > 0.0 && more * v == least;
    assert n * v == least * v + least;
    assert d * d == n * (n * v);
    assert least * v > 0.0 && n > least;
    CorrelationStress.Monotone(least, n, n * v);
    CorrelationStress.Monotone(least, n * v, least);
    CorrelationStress.SquareOrder(least, d);
  }

  lemma FlatMean(xs: seq<real>, n: real)
    requires xs != [] && forall i :: 0 <= i < |xs| ==> xs[i] == n
    ensures Mean(xs) == n
  {
    hide Sum;
    SumOfEqual(xs, n);
  }

  lemma FallingMean(xs: seq<real>, from: nat, n: real)
    requires xs != [] && n > 0.0 && forall i :: 0 <= i < |xs| ==> xs[i] == -n * (from + i) as real
    ensures Mean(xs) <= 0.0
  {
    hide Sum;
    var flipped := seq(|xs|, i requires 0 <= i < |xs| => -xs[i]);
    forall i | 0 <= i < |xs|
      ensures flipped[i] >= 0.0
    {
      assert n * (from + i) as real >= 0.0;
    }
    SumNonNegative(flipped);
    SumScale(xs, flipped, -1.0);
  }

  // ----- Inverses -----

  lemma InverseOrder(least: real, d: real)
    requires 0.0 < least <= d
    ensures FlooredInverse(d) <= 1.0 / least
  {
    Inverses(least, MaxReal(d, 0.00000001));
  }

  lemma Inverses(a: real, b: real)
    requires 0.0 < a <= b
    ensures 1.0 / b <= 1.0 / a
  {
    var x, y := 1.0 / b, 1.0 / a;
    assert x * b == 1.0 && y * a == 1.0 && y > 0.0 && x > 0.0;
    PositiveProduct(x, y);
    CorrelationStress.Monotone(a, b, x * y);
    assert a * (x * y) == x * (y * a) == x;
    assert b * (x * y) == y * (x * b) == y;
  }

  lemma SmallInverses(columns: real, least: real, delta: real)
    requires least > 0.0 && least * delta == columns * 0.00000001
    ensures columns * (1.0 / least) == delta * 100000000.0
  {
    assert columns == least * (delta * 100000000.0);
    assert columns * (1.0 / least) == (delta * 100000000.0) * (least * (1.0 / least));
  }

  lemma HalvedInverse(d: real)
    requires d >= 0.00000001
    ensures FlooredInverse(d) == 2.0 * FlooredInverse(2.0 * d)
  {
    var x, y := 1.0 / d, 1.0 / (2.0 * d);
    assert x * d == 1.0 && y * (2.0 * d) == 1.0;
    assert (x - 2.0 * y) * d == 0.0;
    NoProduct(x - 2.0 * y, d);
  }

  lemma SmallShare(first: real, second: real, delta: real)
    requires first >= 0.00000001 && second > 0.0 && delta > 0.0 && first * delta >= second
    ensures FlooredInverse(first) <= delta * (1.0 / second)
  {
    var x, y := 1.0 / first, 1.0 / second;
    assert x * first == 1.0 && y * second == 1.0 && x > 0.0 && y > 0.0;
    PositiveProduct(x, y);
    CorrelationStress.Monotone(second, first * delta, x * y);
    assert second * (x * y) == x * (y * second) == x;
    assert first * delta * (x * y) == (x * first) * (delta * y) == delta * y;
  }

  lemma JumpIsHigh(second: real, w: real, delta: real)
    requires second >= 0.00000001 && 0.0 < delta <= 0.25 && w == second / delta
    ensures w * delta == second && w >= 0.00000001
  {
    assert w * delta == second;
    if w < 0.00000001 {
      Less(w, 0.00000001, delta);
    }
  }

  // ----- Shares of a sum -----

  lemma {:induction false} SumFromFirst(raw: seq<real>, r: real)
    requires raw != [] && forall j :: 1 <= j < |raw| ==> raw[j] <= r
    ensures Sum(raw) <= raw[0] + (|raw| - 1) as real * r
  {
    var n := |raw| - 1;
    if n == 0 {
      assert raw[..0] == [];
    } else {
      SumFromFirst(raw[..n], r);
      assert n as real * r == (n - 1) as real * r + r;
    }
  }

  /** When the others together are a small part of the first, the first takes almost everything. */
  lemma MostOfIt(raw: seq<real>, r: real, delta: real)
    requires raw != [] && (forall j :: 0 <= j < |raw| ==> raw[j] > 0.0) && forall j :: 1 <= j < |raw| ==> raw[j] <= r
    requires 0.0 < delta <= 0.25 && r > 0.0 && |raw| as real * r <= delta * raw[0]
    ensures Sum(raw) > 0.0 && raw[0] / Sum(raw) >= 1.0 - delta
  {
    hide Sum;
    PositiveSum(raw);
    SumFromFirst(raw, r);
    var first, total := raw[0], Sum(raw);
    assert (|raw| - 1) as real * r == |raw| as real * r - r;
    assert total <= first + delta * first;
    LargeShare(first, total, delta);
  }

  lemma LargeShare(first: real, total: real, delta: real)
    requires first > 0.0 && total > 0.0 && 0.0 < delta <= 0.25 && total <= first + delta * first
    ensures first / total >= 1.0 - delta
  {
    CorrelationStress.Monotone(total, first + delta * first, 1.0 - delta);
    assert (first + delta * first) * (1.0 - delta) == first - (delta * delta) * first;
    assert (delta * delta) * first >= 0.0;
    AtLeastShare(first, total, 1.0 - delta);
  }

  lemma AtLeastShare(first: real, total: real, share: real)
    requires total > 0.0 && total * share <= first
    ensures first / total >= share
  {
    var q := first / total;
    assert q * total == first;
    if q < share {
      Less(q, share, total);
    }
  }

  lemma Less(a: real, b: real, c: real)
    requires a < b && c > 0.0
    ensures a * c < c * b
  {
  }

  lemma AtMostShare(part: real, other: real, total: real, share: real)
    requires part > 0.0 && other > 0.0 && total >= other && part <= share * other
    ensures part / total <= share
  {
    var q := part / total;
    assert q * total == part;
    if q > share {
      CorrelationStress.Monotone(other, total, q);
      Less(share, q, other);
    }
  }

  lemma AtLeastEach(raw: seq<real>, j: nat)
    requires j < |raw| && forall i :: 0 <= i < |raw| ==> raw[i] > 0.0
    ensures Sum(raw) >= raw[j]
  {
    SumNonNegative(raw);
  }

  lemma DifferentShares(b: real, other: real, s: real, t: real)
    requires b > 0.0 && other > 0.0 && s > 0.0 && t > 0.0
    ensures 2.0 * b / s != b / t || other / s != other / t
  {
    if other / s == other / t {
      SameTotal(other, s, t);
      SharesDiffer(b, s);
    }
  }

  lemma SameTotal(x: real, s: real, t: real)
    requires x > 0.0 && s > 0.0 && t > 0.0 && x / s == x / t
    ensures s == t
  {
    var q := x / s;
    assert q * s == x && q * t == x && q != 0.0;
    assert (s - t) * q == 0.0;
    NoProduct(s - t, q);
  }

  lemma SharesDiffer(b: real, s: real)
    requires b > 0.0 && s > 0.0
    ensures 2.0 * b / s != b / s
  {
    assert 2.0 * b / s - b / s == b / s;
    PositiveQuotient(b, s);
  }
}
