/** The correlation-one stress: replacing every correlation by one can only raise portfolio volatility. */
module CorrelationStress {
  import opened Common

  // ----- Vectors -----

  function Dot(u: seq<real>, v: seq<real>): real
    requires |u| == |v|
  {
    if u == [] then 0.0
    else Dot(u[..|u| - 1], v[..|v| - 1]) + u[|u| - 1] * v[|v| - 1]
  }

  /** The series with its mean taken away. */
  function Centered(xs: seq<real>): (r: seq<real>)
    ensures |r| == |xs|
  {
    if xs == [] then [] else seq(|xs|, i requires 0 <= i < |xs| => xs[i] - Mean(xs))
  }

  function Covariance(xs: seq<real>, ys: seq<real>): real
    requires |xs| == |ys| >= 2
  {
    Dot(Centered(xs), Centered(ys)) / (|xs| - 1) as real
  }

  /** The sample variance, with one degree of freedom taken. */
  function Variance(xs: seq<real>): real
    requires |xs| >= 2
  {
    Covariance(xs, xs)
  }

  /** The portfolio's return on each row. */
  function Portfolio(matrix: seq<seq<real>>, weights: seq<real>): (r: seq<real>)
    requires forall i :: 0 <= i < |matrix| ==> |matrix[i]| == |weights|
    ensures |r| == |matrix|
  {
    seq(|matrix|, i requires 0 <= i < |matrix| => Dot(matrix[i], weights))
  }

  function Magnitudes(weights: seq<real>): (r: seq<real>)
    ensures |r| == |weights|
  {
    seq(|weights|, j requires 0 <= j < |weights| => AbsReal(weights[j]))
  }

  // ----- The stress -----

  datatype Volatility = Volatility(baseline: real, correlationOne: real, multiplier: real)

  /** A square root on the non-negative reals. */
  ghost predicate IsRoot(root: real -> real) {
    forall x :: x >= 0.0 ==> root(x) >= 0.0 && root(x) * root(x) == x
  }

  function Deviations(matrix: seq<seq<real>>, columns: nat, root: real -> real): (r: seq<real>)
    requires |matrix| >= 2 && forall i :: 0 <= i < |matrix| ==> |matrix[i]| == columns
    ensures |r| == columns
  {
    seq(columns, j requires 0 <= j < columns => root(Variance(ColumnOf(matrix, j))))
  }

  /** One row alone has no sample deviation. */
  function Stress(matrix: seq<seq<real>>, weights: seq<real>, root: real -> real): Result<Volatility, string>
    requires |matrix| != 1
  {
    if matrix == [] || exists i :: 0 <= i < |matrix| && |matrix[i]| != |weights|
    then Err("return matrix columns must match portfolio weights")
    else
      var stressed := Dot(Magnitudes(weights), Deviations(matrix, |weights|, root));
      var baseline := root(Variance(Portfolio(matrix, weights)));
      Ok(Volatility(baseline, stressed, stressed / MaxReal(baseline, 0.000000000001)))
  }

  // ----- Dot products -----

  lemma {:induction false} DotSymmetric(u: seq<real>, v: seq<real>)
    requires |u| == |v|
    ensures Dot(u, v) == Dot(v, u)
  {
    if u != [] {
      DotSymmetric(u[..|u| - 1], v[..|v| - 1]);
    }
  }

  /** Linear in the first vector. */
  lemma {:induction false} DotLinear(u: seq<real>, v: seq<real>, k: real, uv: seq<real>, y: seq<real>)
    requires |u| == |v| == |uv| == |y| && forall i :: 0 <= i < |u| ==> uv[i] == u[i] + k * v[i]
    ensures Dot(uv, y) == Dot(u, y) + k * Dot(v, y)
  {
    if u != [] {
      var n := |u| - 1;
      DotLinear(u[..n], v[..n], k, uv[..n], y[..n]);
      Distribute(u[n], v[n], k, y[n], Dot(v[..n], y[..n]));
    }
  }

  lemma Distribute(a: real, b: real, k: real, y: real, d: real)
    ensures (a + k * b) * y == a * y + k * (b * y) && k * (d + b * y) == k * d + k * (b * y)
  {
  }

  lemma {:induction false} DotSquareNonNegative(u: seq<real>)
    ensures Dot(u, u) >= 0.0
  {
    if u != [] {
      DotSquareNonNegative(u[..|u| - 1]);
    }
  }

  lemma SquareOrder(a: real, b: real)
    requires b >= 0.0 && a * a <= b * b
    ensures -b <= a <= b
  {
    if a > b {
      PositiveProduct(a - b, a + b);
    }
    if -a > b {
      PositiveProduct(-a - b, b - a);
    }
  }

  lemma CauchyStep(a: real, b: real, c: real, p: real, x: real)
    requires a * a <= b * c && b >= 0.0 && c >= 0.0
    ensures (a + p * x) * (a + p * x) <= (b + p * p) * (c + x * x)
  {
    var m := b * (x * x) + c * (p * p);
    assert m >= 0.0;
    var d := b * (x * x) - c * (p * p);
    var t := 2.0 * a * (p * x);
    assert m * m == d * d + 4.0 * (b * c) * ((p * x) * (p * x));
    assert t * t == 4.0 * (a * a) * ((p * x) * (p * x));
    Monotone(4.0 * (a * a), 4.0 * (b * c), (p * x) * (p * x));
    SquareOrder(t, m);
    assert (a + p * x) * (a + p * x) == a * a + t + (p * p) * (x * x);
    assert (b + p * p) * (c + x * x) == b * c + m + (p * p) * (x * x);
  }

  lemma Monotone(a: real, b: real, s: real)
    requires a <= b && s >= 0.0
    ensures a * s <= b * s
  {
  }

  lemma {:induction false} CauchySchwarz(u: seq<real>, v: seq<real>)
    requires |u| == |v|
    ensures Dot(u, v) * Dot(u, v) <= Dot(u, u) * Dot(v, v)
  {
    if u != [] {
      var n := |u| - 1;
      CauchySchwarz(u[..n], v[..n]);
      DotSquareNonNegative(u[..n]);
      DotSquareNonNegative(v[..n]);
      CauchyStep(Dot(u[..n], v[..n]), Dot(u[..n], u[..n]), Dot(v[..n], v[..n]), u[n], v[n]);
    }
  }

  // ----- Centering -----

  lemma {:induction false} SumLinear(xs: seq<real>, ys: seq<real>, k: real, zs: seq<real>)
    requires |xs| == |ys| == |zs| && forall i :: 0 <= i < |xs| ==> zs[i] == xs[i] + k * ys[i]
    ensures Sum(zs) == Sum(xs) + k * Sum(ys)
  {
    if xs != [] {
      var n := |xs| - 1;
      SumLinear(xs[..n], ys[..n], k, zs[..n]);
    }
  }

  lemma CenteredLinear(xs: seq<real>, ys: seq<real>, k: real, zs: seq<real>)
    requires |xs| == |ys| == |zs| && forall i :: 0 <= i < |xs| ==> zs[i] == xs[i] + k * ys[i]
    ensures forall i :: 0 <= i < |xs| ==> Centered(zs)[i] == Centered(xs)[i] + k * Centered(ys)[i]
  {
    hide Sum, Mean;
    forall i | 0 <= i < |xs|
      ensures Centered(zs)[i] == Centered(xs)[i] + k * Centered(ys)[i]
    {
      MeansLinear(xs, ys, k, zs);
      Differences(xs[i], Mean(xs), ys[i], Mean(ys), k);
    }
  }

  lemma Differences(x: real, mx: real, y: real, my: real, k: real)
    ensures (x + k * y) - (mx + k * my) == (x - mx) + k * (y - my)
  {
  }

  lemma MeansLinear(xs: seq<real>, ys: seq<real>, k: real, zs: seq<real>)
    requires |xs| == |ys| == |zs| > 0 && forall i :: 0 <= i < |xs| ==> zs[i] == xs[i] + k * ys[i]
    ensures Mean(zs) == Mean(xs) + k * Mean(ys)
  {
    hide Sum;
    SumLinear(xs, ys, k, zs);
    MeanLinear(Sum(xs), Sum(ys), k, |xs| as real);
  }

  lemma MeanLinear(a: real, b: real, k: real, n: real)
    requires n > 0.0
    ensures (a + k * b) / n == a / n + k * (b / n)
  {
  }

  // ----- Adding one column -----

  /** The variance of a sum with a scaled column. */
  lemma VarianceOfSum(xs: seq<real>, ys: seq<real>, k: real, zs: seq<real>)
    requires |xs| == |ys| == |zs| >= 2 && forall i :: 0 <= i < |xs| ==> zs[i] == xs[i] + k * ys[i]
    ensures Variance(zs) == Variance(xs) + 2.0 * k * Covariance(xs, ys) + k * k * Variance(ys)
  {
    CenteredLinear(xs, ys, k, zs);
    var x, y, z := Centered(xs), Centered(ys), Centered(zs);
    DotLinear(x, y, k, z, z);
    DotLinear(x, y, k, z, x);
    DotLinear(x, y, k, z, y);
    DotSymmetric(x, z);
    DotSymmetric(y, z);
    DotSymmetric(x, y);
    Expand(Dot(z, z), Dot(x, x), Dot(x, y), Dot(y, y), Dot(z, x), Dot(z, y), k, (|xs| - 1) as real);
  }

  lemma Expand(zz: real, xx: real, xy: real, yy: real, zx: real, zy: real, k: real, n: real)
    requires n > 0.0 && zz == zx + k * zy && zx == xx + k * xy && zy == xy + k * yy
    ensures zz / n == xx / n + 2.0 * k * (xy / n) + k * k * (yy / n)
  {
    assert zz == xx + 2.0 * k * xy + k * k * yy;
  }

  lemma CovarianceBound(xs: seq<real>, ys: seq<real>)
    requires |xs| == |ys| >= 2
    ensures Covariance(xs, ys) * Covariance(xs, ys) <= Variance(xs) * Variance(ys)
    ensures Variance(xs) >= 0.0
  {
    var x, y, n := Centered(xs), Centered(ys), (|xs| - 1) as real;
    CauchySchwarz(x, y);
    DotSquareNonNegative(x);
    Divided(Dot(x, y), Dot(x, x), Dot(y, y), n);
  }

  lemma Divided(a: real, b: real, c: real, n: real)
    requires n > 0.0 && a * a <= b * c && b >= 0.0
    ensures (a / n) * (a / n) <= (b / n) * (c / n) && b / n >= 0.0
  {
    var r := 1.0 / n;
    assert a / n == a * r && b / n == b * r && c / n == c * r;
    Monotone(a * a, b * c, r * r);
    assert (a * r) * (a * r) == (a * a) * (r * r);
    assert (b * r) * (c * r) == (b * c) * (r * r);
  }

  lemma CovarianceAtMost(v: real, c: real, u: real, s: real, d: real)
    requires 0.0 <= v <= s * s && s >= 0.0 && d >= 0.0 && u == d * d && c * c <= v * u
    ensures -(s * d) <= c <= s * d
  {
    Monotone(v, s * s, d * d);
    assert (s * s) * (d * d) == (s * d) * (s * d);
    SquareOrder(c, s * d);
  }

  lemma ScaledAtMost(k: real, c: real, b: real)
    requires -b <= c <= b
    ensures k * c <= AbsReal(k) * b
  {
    if k >= 0.0 {
      Monotone(c, b, k);
    } else {
      Monotone(-c, b, -k);
    }
  }

  lemma SquareOfSum(s: real, t: real)
    ensures (s + t) * (s + t) == s * s + 2.0 * (s * t) + t * t
  {
  }

  lemma Regroup(k: real, c: real, u: real, s: real, d: real)
    requires u == d * d
    ensures 2.0 * k * c == 2.0 * (k * c)
    ensures k * k * u == (AbsReal(k) * d) * (AbsReal(k) * d)
    ensures AbsReal(k) * (s * d) == s * (AbsReal(k) * d)
  {
    var m := AbsReal(k);
    assert k * k == m * m;
  }

  /** One more column raises the deviation by at most its own scaled deviation. */
  lemma AddColumn(xs: seq<real>, ys: seq<real>, k: real, zs: seq<real>, s: real, d: real, total: real)
    requires |xs| == |ys| == |zs| >= 2 && forall i :: 0 <= i < |xs| ==> zs[i] == xs[i] + k * ys[i]
    requires Variance(xs) <= s * s && Variance(ys) == d * d && s >= 0.0 && d >= 0.0
    requires total == s + AbsReal(k) * d
    ensures 0.0 <= Variance(zs) <= total * total && total >= 0.0
  {
    hide Variance, Covariance, AbsReal;
    VarianceOfSum(xs, ys, k, zs);
    CovarianceBound(xs, ys);
    CovarianceBound(zs, ys);
    var v, c, u, t := Variance(xs), Covariance(xs, ys), Variance(ys), AbsReal(k) * d;
    CovarianceAtMost(v, c, u, s, d);
    ScaledAtMost(k, c, s * d);
    Regroup(k, c, u, s, d);
    SquareOfSum(s, t);
    MagnitudeTimes(k, d);
  }

  lemma MagnitudeTimes(k: real, d: real)
    requires d >= 0.0
    ensures AbsReal(k) * d >= 0.0
  {
  }

  // ----- All columns -----

  function Leading(matrix: seq<seq<real>>, k: nat): (r: seq<seq<real>>)
    requires forall i :: 0 <= i < |matrix| ==> k <= |matrix[i]|
    ensures |r| == |matrix| && forall i :: 0 <= i < |r| ==> r[i] == matrix[i][..k]
  {
    seq(|matrix|, i requires 0 <= i < |matrix| => matrix[i][..k])
  }

  lemma {:induction false} Zeros(u: seq<real>)
    requires forall i :: 0 <= i < |u| ==> u[i] == 0.0
    ensures Dot(u, u) == 0.0
  {
    if u != [] {
      Zeros(u[..|u| - 1]);
    }
  }

  lemma FlatVariance(flat: seq<real>, a: real)
    requires |flat| >= 2 && forall i :: 0 <= i < |flat| ==> flat[i] == a
    ensures Variance(flat) == 0.0
  {
    SumOfEqual(flat, a);
    assert Mean(flat) == a;
    Zeros(Centered(flat));
  }

  predicate Rectangular(matrix: seq<seq<real>>, columns: nat) {
    |matrix| >= 2 && forall i :: 0 <= i < |matrix| ==> |matrix[i]| == columns
  }

  /** A column's deviation, whatever square root computed it. */
  ghost predicate AreDeviations(matrix: seq<seq<real>>, deviations: seq<real>)
    requires Rectangular(matrix, |deviations|)
  {
    forall j :: 0 <= j < |deviations| ==>
      deviations[j] >= 0.0 && deviations[j] * deviations[j] == Variance(ColumnOf(matrix, j))
  }

  /** The last column's share of a portfolio. */
  lemma PortfolioSplits(matrix: seq<seq<real>>, weights: seq<real>)
    requires Rectangular(matrix, |weights|) && weights != []
    ensures var k := |weights| - 1;
            forall i :: 0 <= i < |matrix| ==>
              Portfolio(matrix, weights)[i]
              == Portfolio(Leading(matrix, k), weights[..k])[i] + weights[k] * ColumnOf(matrix, k)[i]
  {
  }

  lemma StressSplits(weights: seq<real>, deviations: seq<real>)
    requires |weights| == |deviations| > 0
    ensures var k := |weights| - 1;
            Dot(Magnitudes(weights), deviations)
            == Dot(Magnitudes(weights[..k]), deviations[..k]) + AbsReal(weights[k]) * deviations[k]
  {
    assert Magnitudes(weights)[..|weights| - 1] == Magnitudes(weights[..|weights| - 1]);
  }

  lemma LeadingDeviations(matrix: seq<seq<real>>, deviations: seq<real>, k: nat)
    requires Rectangular(matrix, |deviations|) && AreDeviations(matrix, deviations) && k <= |deviations|
    ensures AreDeviations(Leading(matrix, k), deviations[..k])
  {
    hide Variance;
    forall j | 0 <= j < k
      ensures ColumnOf(Leading(matrix, k), j) == ColumnOf(matrix, j)
    {
    }
  }

  /** The portfolio's variance is at most the square of the deviations summed at full correlation. */
  lemma {:induction false} PortfolioVarianceBound(matrix: seq<seq<real>>, weights: seq<real>, deviations: seq<real>)
    requires Rectangular(matrix, |weights|) && |deviations| == |weights| && AreDeviations(matrix, deviations)
    ensures var s := Dot(Magnitudes(weights), deviations);
            0.0 <= Variance(Portfolio(matrix, weights)) <= s * s && s >= 0.0
    decreases |weights|
  {
    hide Variance, Covariance, Portfolio, Dot, Magnitudes, Leading, ColumnOf, AreDeviations, AbsReal;
    if weights == [] {
      NoColumns(matrix, deviations);
    } else {
      var k := |weights| - 1;
      var front, w, d := Leading(matrix, k), weights[..k], deviations[..k];
      LeadingDeviations(matrix, deviations, k);
      PortfolioVarianceBound(front, w, d);
      var before, column, whole := Portfolio(front, w), ColumnOf(matrix, k), Portfolio(matrix, weights);
      PortfolioSplits(matrix, weights);
      StressSplits(weights, deviations);
      LastDeviation(matrix, deviations);
      AddColumn(before, column, weights[k], whole, Dot(Magnitudes(w), d), deviations[k],
                Dot(Magnitudes(weights), deviations));
    }
  }

  lemma LastDeviation(matrix: seq<seq<real>>, deviations: seq<real>)
    requires Rectangular(matrix, |deviations|) && deviations != [] && AreDeviations(matrix, deviations)
    ensures var k := |deviations| - 1;
            deviations[k] >= 0.0 && Variance(ColumnOf(matrix, k)) == deviations[k] * deviations[k]
  {
    hide Variance;
  }

  lemma NoColumns(matrix: seq<seq<real>>, deviations: seq<real>)
    requires Rectangular(matrix, 0) && deviations == []
    ensures Variance(Portfolio(matrix, [])) == 0.0 && Dot(Magnitudes([]), deviations) == 0.0
  {
    FlatVariance(Portfolio(matrix, []), 0.0);
    hide Variance;
  }

  lemma DeviationsAre(matrix: seq<seq<real>>, columns: nat, root: real -> real)
    requires Rectangular(matrix, columns) && IsRoot(root)
    ensures AreDeviations(matrix, Deviations(matrix, columns, root))
  {
    forall j | 0 <= j < columns
      ensures Variance(ColumnOf(matrix, j)) >= 0.0
    {
      CovarianceBound(ColumnOf(matrix, j), ColumnOf(matrix, j));
    }
    hide Variance;
  }

  /**
    For every return matrix and any real weights, the stressed volatility is at least the baseline, and the multiplier
    is at least one exactly when the stressed volatility reaches the floor, as it does whenever the baseline does.
   */
  lemma DiversificationBound(matrix: seq<seq<real>>, weights: seq<real>, root: real -> real)
    requires Rectangular(matrix, |weights|) && IsRoot(root)
    ensures var r := Stress(matrix, weights, root);
            && r.Ok? && 0.0 <= r.value.baseline <= r.value.correlationOne
            && (r.value.multiplier >= 1.0 <==> r.value.correlationOne >= 0.000000000001)
            && (r.value.baseline >= 0.000000000001 ==> r.value.multiplier >= 1.0)
  {
    hide Variance, Dot, Magnitudes, Deviations, Portfolio, IsRoot, AreDeviations;
    var deviations := Deviations(matrix, |weights|, root);
    DeviationsAre(matrix, |weights|, root);
    PortfolioVarianceBound(matrix, weights, deviations);
    var variance, stressed := Variance(Portfolio(matrix, weights)), Dot(Magnitudes(weights), deviations);
    RootAt(root, variance);
    SquareOrder(root(variance), stressed);
    AtLeastOne(stressed, MaxReal(root(variance), 0.000000000001));
  }

  lemma RootAt(root: real -> real, x: real)
    requires IsRoot(root) && x >= 0.0
    ensures root(x) >= 0.0 && root(x) * root(x) == x
  {
  }

  lemma AtLeastOne(stressed: real, floor: real)
    requires floor > 0.0
    ensures stressed / floor >= 1.0 <==> stressed >= floor
  {
  }

  // ----- Where the bound is reached -----

  /** Every column moves with one series: `matrix[i][j] == beta[j] * market[i] + alpha[j]` with no negative beta. */
  ghost predicate MovesTogether(matrix: seq<seq<real>>, market: seq<real>, beta: seq<real>, alpha: seq<real>) {
    && Rectangular(matrix, |beta|) && |market| == |matrix| && |alpha| == |beta|
    && (forall j :: 0 <= j < |beta| ==> beta[j] >= 0.0)
    && forall i, j :: 0 <= i < |matrix| && 0 <= j < |beta| ==> matrix[i][j] == beta[j] * market[i] + alpha[j]
  }

  lemma VarianceOfAffine(market: seq<real>, b: real, a: real, ys: seq<real>)
    requires |ys| == |market| >= 2 && forall i :: 0 <= i < |ys| ==> ys[i] == b * market[i] + a
    ensures Variance(ys) == b * b * Variance(market)
  {
    hide Variance, Covariance;
    var flat := seq(|ys|, _ => a);
    FlatVariance(flat, a);
    CovarianceBound(flat, market);
    VarianceOfSum(flat, market, b, ys);
    Vanishes(Covariance(flat, market), Variance(flat), Variance(market), b);
  }

  lemma Vanishes(c: real, u: real, v: real, b: real)
    requires u == 0.0 && c * c <= u * v
    ensures 2.0 * b * c == 0.0
  {
    SquareOrder(c, 0.0);
    assert c == 0.0;
    TimesZero(2.0 * b, c);
  }

  lemma TimesZero(a: real, c: real)
    requires c == 0.0
    ensures a * c == 0.0
  {
  }

  lemma {:induction false} RowIsAffine(row: seq<real>, weights: seq<real>, beta: seq<real>, alpha: seq<real>, m: real)
    requires |row| == |weights| == |beta| == |alpha|
    requires forall j :: 0 <= j < |row| ==> row[j] == beta[j] * m + alpha[j]
    ensures Dot(row, weights) == Dot(beta, weights) * m + Dot(alpha, weights)
  {
    if row != [] {
      var n := |row| - 1;
      RowIsAffine(row[..n], weights[..n], beta[..n], alpha[..n], m);
      assert row[n] * weights[n] == (beta[n] * weights[n]) * m + alpha[n] * weights[n];
    }
  }

  lemma {:induction false} DeviationsScale(weights: seq<real>, beta: seq<real>, deviations: seq<real>, s: real)
    requires |weights| == |beta| == |deviations|
    requires forall j :: 0 <= j < |weights| ==> weights[j] >= 0.0 && deviations[j] == beta[j] * s
    ensures Dot(Magnitudes(weights), deviations) == Dot(beta, weights) * s
  {
    if weights != [] {
      var n := |weights| - 1;
      DeviationsScale(weights[..n], beta[..n], deviations[..n], s);
      assert Magnitudes(weights)[..n] == Magnitudes(weights[..n]);
      assert weights[n] * (beta[n] * s) == (beta[n] * weights[n]) * s;
    }
  }

  lemma {:induction false} DotNonNegative(u: seq<real>, v: seq<real>)
    requires |u| == |v| && forall i :: 0 <= i < |u| ==> u[i] >= 0.0 && v[i] >= 0.0
    ensures Dot(u, v) >= 0.0
  {
    if u != [] {
      DotNonNegative(u[..|u| - 1], v[..|v| - 1]);
    }
  }

  lemma RootOfScaled(root: real -> real, b: real, v: real, scaled: real)
    requires IsRoot(root) && b >= 0.0 && v >= 0.0 && scaled == b * b * v
    ensures root(scaled) == b * root(v)
  {
    var s, r := root(v), root(scaled);
    assert s * s == v && s >= 0.0;
    assert scaled == (b * s) * (b * s);
    assert scaled >= 0.0;
    assert r * r == scaled && r >= 0.0;
    SquareOrder(r, b * s);
    SquareOrder(b * s, r);
  }

  lemma DeviationsFollowMarket(matrix: seq<seq<real>>, root: real -> real, market: seq<real>, beta: seq<real>,
                               alpha: seq<real>)
    requires IsRoot(root) && MovesTogether(matrix, market, beta, alpha) && Variance(market) >= 0.0
    ensures forall j :: 0 <= j < |beta| ==> Deviations(matrix, |beta|, root)[j] == beta[j] * root(Variance(market))
  {
    hide Variance, IsRoot;
    forall j | 0 <= j < |beta|
      ensures Deviations(matrix, |beta|, root)[j] == beta[j] * root(Variance(market))
    {
      VarianceOfAffine(market, beta[j], alpha[j], ColumnOf(matrix, j));
      RootOfScaled(root, beta[j], Variance(market), Variance(ColumnOf(matrix, j)));
    }
  }

  /** When every column really is perfectly correlated, long-only volatility already equals the stressed one. */
  lemma CorrelationOneIsReached(matrix: seq<seq<real>>, weights: seq<real>, root: real -> real,
                                market: seq<real>, beta: seq<real>, alpha: seq<real>)
    requires IsRoot(root) && |weights| == |beta| && MovesTogether(matrix, market, beta, alpha)
    requires forall j :: 0 <= j < |weights| ==> weights[j] >= 0.0
    ensures var r := Stress(matrix, weights, root); r.Ok? && r.value.baseline == r.value.correlationOne
  {
    hide Variance, Dot;
    CovarianceBound(market, market);
    var s, deviations := root(Variance(market)), Deviations(matrix, |weights|, root);
    DeviationsFollowMarket(matrix, root, market, beta, alpha);
    DeviationsScale(weights, beta, deviations, s);
    var whole := Portfolio(matrix, weights);
    forall i | 0 <= i < |matrix|
      ensures whole[i] == Dot(beta, weights) * market[i] + Dot(alpha, weights)
    {
      RowIsAffine(matrix[i], weights, beta, alpha, market[i]);
    }
    VarianceOfAffine(market, Dot(beta, weights), Dot(alpha, weights), whole);
    DotNonNegative(beta, weights);
    RootOfScaled(root, Dot(beta, weights), Variance(market), Variance(whole));
  }
}
