/**
 What the effective sample size means: autocorrelation is a property of the shape of the
 data, repetition makes it positive, and more of it leaves fewer independent samples.
 Then what the bootstrap intervals cover.
 */
module SampleSize {
  import opened Numbers
  import opened Collections
  import opened Indicators
  import opened Sorting
  import opened Statistics

  // ---- autocorrelation and the shape of the data ---------------------------------------

  /** The values on another scale. */
  function Rescaled(xs: seq<real>, c: real, d: real): (r: seq<real>)
    ensures |r| == |xs|
    ensures forall i :: 0 <= i < |r| ==> r[i] == Times(c, xs[i]) + d
  {
    seq(|xs|, i requires 0 <= i < |xs| => Times(c, xs[i]) + d)
  }

  lemma OneMoreScaled(total: real, n: real, x: real, c: real, d: real)
    ensures (c * total + n * d) + (Times(c, x) + d) == c * (total + x) + (n + 1.0) * d
  {
  }

  lemma {:induction false} SumRescaled(xs: seq<real>, c: real, d: real)
    ensures Sum(Rescaled(xs, c, d)) == c * Sum(xs) + |xs| as real * d
  {
    if xs != [] {
      hide Times;
      var n := |xs| - 1;
      SumRescaled(xs[..n], c, d);
      assert Rescaled(xs, c, d)[..n] == Rescaled(xs[..n], c, d);
      OneMoreScaled(Sum(xs[..n]), n as real, xs[n], c, d);
    }
  }

  lemma MeanOfScaled(total: real, n: real, c: real, d: real)
    requires n > 0.0
    ensures (c * total + n * d) / n == Times(c, total / n) + d
  {
    var m := total / n;
    assert m * n == total;
    assert c * total + n * d == (c * m + d) * n;
  }

  lemma DifferenceScaled(c: real, x: real, m: real, d: real)
    ensures (Times(c, x) + d) - (Times(c, m) + d) == Times(c, x - m)
  {
  }

  lemma MeanRescaled(xs: seq<real>, c: real, d: real)
    requires xs != []
    ensures Mean(Rescaled(xs, c, d), |xs|) == Times(c, Mean(xs, |xs|)) + d
  {
    hide Times, Sum, Rescaled;
    SumRescaled(xs, c, d);
    MeanOfScaled(Sum(xs), |xs| as real, c, d);
  }

  lemma DeviationsRescaled(xs: seq<real>, c: real, d: real)
    requires xs != []
    ensures Deviations(Rescaled(xs, c, d)) == Rescaled(Deviations(xs), c, 0.0)
  {
    hide Times, Mean;
    MeanRescaled(xs, c, d);
    forall i | 0 <= i < |xs|
      ensures Deviations(Rescaled(xs, c, d))[i] == Rescaled(Deviations(xs), c, 0.0)[i]
    {
      DifferenceScaled(c, xs[i], Mean(xs, |xs|), d);
    }
  }

  lemma ProductScaled(c: real, x: real, y: real)
    ensures Times(Times(c, x) + 0.0, Times(c, y) + 0.0) == Times(Times(c, c), Times(x, y)) + 0.0
  {
  }

  lemma ProductsScaled(ds: seq<real>, c: real, lag: nat)
    requires lag <= |ds|
    ensures var es, n := Rescaled(ds, c, 0.0), |ds| - lag;
            Products(es[..n], es[lag..]) == Rescaled(Products(ds[..n], ds[lag..]), Times(c, c), 0.0)
  {
    hide Times;
    var es, n := Rescaled(ds, c, 0.0), |ds| - lag;
    forall i | 0 <= i < n
      ensures Products(es[..n], es[lag..])[i] == Rescaled(Products(ds[..n], ds[lag..]), Times(c, c), 0.0)[i]
    {
      ProductScaled(c, ds[i], ds[i + lag]);
    }
  }

  lemma CovarianceScaled(ds: seq<real>, c: real, lag: nat)
    requires lag <= |ds|
    ensures Covariance(Rescaled(ds, c, 0.0), lag) == Times(c, c) * Covariance(ds, lag)
  {
    hide Times, Sum, Products;
    ProductsScaled(ds, c, lag);
    SumRescaled(Products(ds[..|ds| - lag], ds[lag..]), Times(c, c), 0.0);
  }

  lemma RatioScaled(x: real, y: real, k: real)
    requires k > 0.0
    ensures k * y == 0.0 <==> y == 0.0
    ensures y != 0.0 ==> (k * x) / (k * y) == x / y
  {
    if y != 0.0 {
      var q := x / y;
      assert q * y == x;
      assert q * (k * y) == k * x;
    }
  }

  lemma SameSigns(x: real, y: real)
    requires (x > 0.0 && y > 0.0) || (x < 0.0 && y < 0.0)
    ensures Times(x, y) > 0.0
  {
    if x < 0.0 {
      assert (-x) * (-y) > 0.0;
    } else {
      assert x * y > 0.0;
    }
  }

  lemma SquarePositive(c: real)
    requires c != 0.0
    ensures Times(c, c) > 0.0
  {
    hide Times;
    SameSigns(c, c);
  }

  /** Autocorrelation is unchanged by shifting and by scaling with anything but zero. */
  lemma AutocorrOfShape(xs: seq<real>, c: real, d: real, lag: int)
    requires c != 0.0
    ensures Autocorr(Rescaled(xs, c, d), lag) == Autocorr(xs, lag)
  {
    hide Covariance, Times;
    if 0 < lag < |xs| {
      var ds := Deviations(xs);
      DeviationsRescaled(xs, c, d);
      CovarianceScaled(ds, c, lag);
      CovarianceScaled(ds, c, 0);
      SquarePositive(c);
      RatioScaled(Covariance(ds, lag), Covariance(ds, 0), Times(c, c));
    }
  }

  // ---- its sign on repeating data ---------------------------------------------------------

  lemma SquareSum(xs: seq<real>, k: nat)
    requires k < |xs| && xs[k] != 0.0
    ensures Sum(Products(xs, xs)) > 0.0
  {
    SquaresNonnegative(xs);
    forall i | 0 <= i < |xs|
      ensures Products(xs, xs)[i] >= 0.0
    {
      assert Products(xs, xs)[i] == Square(xs[i]);
    }
    SumZero(Products(xs, xs));
    SquarePositive(xs[k]);
    assert Products(xs, xs)[k] == Times(xs[k], xs[k]);
  }

  lemma PositiveQuotient(x: real, y: real)
    requires x > 0.0 && y > 0.0
    ensures x / y > 0.0 && -x / y < 0.0
  {
  }

  lemma VariancePositive(ds: seq<real>, k: nat)
    requires k < |ds| && ds[k] != 0.0
    ensures Covariance(ds, 0) > 0.0
  {
    assert ds[..|ds| - 0] == ds && ds[0..] == ds;
    SquareSum(ds, k);
  }

  /** Data that repeats after `lag` correlates positively with itself, unless nothing but the mean repeats. */
  lemma RepetitionCorrelates(values: seq<real>, lag: nat, k: nat)
    requires 0 < lag <= k < |values|
    requires forall i :: 0 <= i < |values| - lag ==> values[i + lag] == values[i]
    requires values[k] != Mean(values, |values|)
    ensures Autocorr(values, lag) > 0.0
  {
    hide Times, Sum;
    var ds, n := Deviations(values), |values| - lag;
    VariancePositive(ds, k);
    assert ds[..n] == ds[lag..] by {
      forall i | 0 <= i < n
        ensures ds[i] == ds[lag..][i]
      {
        assert values[i + lag] == values[i];
      }
    }
    assert ds[lag..][k - lag] == ds[k];
    SquareSum(ds[lag..], k - lag);
    PositiveQuotient(Covariance(ds, lag), Covariance(ds, 0));
  }

  function Negated(xs: seq<real>): (r: seq<real>)
    ensures |r| == |xs|
  {
    seq(|xs|, i requires 0 <= i < |xs| => -xs[i])
  }

  lemma {:induction false} NegatedProducts(xs: seq<real>)
    ensures Sum(Products(Negated(xs), xs)) == -Sum(Products(xs, xs))
  {
    if xs != [] {
      hide Products;
      var n := |xs| - 1;
      NegatedProducts(xs[..n]);
      assert Negated(xs)[..n] == Negated(xs[..n]);
      ProductsLast(Negated(xs), xs);
      ProductsLast(xs, xs);
      assert Times(-xs[n], xs[n]) == -Times(xs[n], xs[n]);
    } else {
      assert Products(Negated(xs), xs) == [] && Products(xs, xs) == [];
    }
  }

  lemma HalvesNegated(values: seq<real>, lag: nat)
    requires lag < |values|
    requires forall i :: 0 <= i < |values| - lag ==>
               values[i + lag] - Mean(values, |values|) == Mean(values, |values|) - values[i]
    ensures var ds := Deviations(values); ds[..|values| - lag] == Negated(ds[lag..])
  {
    hide Mean;
    var ds, mean := Deviations(values), Mean(values, |values|);
    forall i | 0 <= i < |values| - lag
      ensures ds[i] == Negated(ds[lag..])[i]
    {
      assert values[i + lag] - mean == mean - values[i];
    }
  }

  lemma NegativeCovariance(ds: seq<real>, lag: nat, k: nat)
    requires lag <= k < |ds| && ds[..|ds| - lag] == Negated(ds[lag..]) && ds[k] != 0.0
    ensures Covariance(ds, lag) < 0.0 < Covariance(ds, 0)
  {
    hide Times, Sum, Products, Negated;
    VariancePositive(ds, k);
    assert ds[lag..][k - lag] == ds[k];
    SquareSum(ds[lag..], k - lag);
    NegatedProducts(ds[lag..]);
  }

  /** Data that swings to the other side of its mean after `lag` correlates negatively. */
  lemma AlternationAnticorrelates(values: seq<real>, lag: nat, k: nat)
    requires 0 < lag <= k < |values|
    requires forall i :: 0 <= i < |values| - lag ==>
               values[i + lag] - Mean(values, |values|) == Mean(values, |values|) - values[i]
    requires values[k] != Mean(values, |values|)
    ensures Autocorr(values, lag) < 0.0
  {
    hide Mean, Covariance, Negated;
    var ds := Deviations(values);
    HalvesNegated(values, lag);
    NegativeCovariance(ds, lag, k);
    PositiveQuotient(-Covariance(ds, lag), Covariance(ds, 0));
  }

  // ---- the effective sample size --------------------------------------------------------------

  /** How many lags count: up to the maximal one, as far as there are pairs. */
  function Lags(n: nat, maxLag: int): nat {
    if maxLag <= 0 || n <= 1 then 0 else if maxLag < n - 1 then maxLag else n - 1
  }

  lemma NoLags(values: seq<real>)
    ensures AutocorrSum(values, 0) == 0.0
  {
  }

  lemma QuotientOf(n: real, denom: real)
    requires n >= 1.0 && denom > 0.0
    ensures n / denom * denom == n
    ensures denom <= 1.0 ==> n / denom >= n
    ensures 1.0 <= denom <= n ==> 1.0 <= n / denom <= n
    ensures denom >= n ==> n / denom <= 1.0
  {
    DivMonotone(n, n, denom);
    assert 1.0 * denom == denom;
    if denom <= 1.0 {
      MulMonotone(denom, 1.0, n);
      QuotientAtLeast(n, denom, n);
    } else {
      MulMonotone(1.0, denom, n);
      QuotientAtMost(n, denom, n);
    }
    if denom <= n {
      QuotientAtLeast(n, denom, 1.0);
    } else {
      QuotientAtMost(n, denom, 1.0);
    }
  }

  lemma ClampedQuotient(n: real, inflation: real)
    requires n >= 1.0
    ensures var neff := Min(Max(n / Max(inflation, 0.000000001), 1.0), n);
            && (inflation <= 1.0 ==> neff == n)
            && (1.0 <= inflation <= n ==> neff * inflation == n)
            && (inflation >= n ==> neff == 1.0)
  {
    var denom := Max(inflation, 0.000000001);
    QuotientOf(n, denom);
  }

  /**
   The sample size in three cases of the sum of autocorrelations: all samples when there
   is no dependence on balance, a single one when there is too much, and in between as
   many as make the samples times the inflation equal to the raw count.
   */
  lemma SampleSizeCases(values: seq<real>, maxLag: int)
    requires values != []
    ensures var n, neff := |values| as real, EffectiveSampleSize(values, maxLag);
            var inflation := 1.0 + 2.0 * AutocorrSum(values, Lags(|values|, maxLag));
            && neff.Some?
            && (inflation <= 1.0 ==> neff.value == n)
            && (1.0 <= inflation <= n ==> neff.value * inflation == n)
            && (inflation >= n ==> neff.value == 1.0)
  {
    hide AutocorrSum;
    var n, neff := |values| as real, EffectiveSampleSize(values, maxLag);
    if |values| == 1 || maxLag <= 0 {
      assert AutocorrSum(values, 0) == 0.0 by {
        NoLags(values);
      }
    } else {
      var inflation := 1.0 + 2.0 * AutocorrSum(values, Lags(|values|, maxLag));
      ClampedQuotient(n, inflation);
    }
  }

  lemma {:induction false} SumNotNegative(values: seq<real>, lags: nat)
    requires forall j :: 1 <= j <= lags ==> Autocorr(values, j) >= 0.0
    ensures AutocorrSum(values, lags) >= 0.0
  {
    hide Autocorr;
    if lags > 0 {
      SumNotNegative(values, lags - 1);
    }
  }

  lemma {:induction false} SumOfLags(values: seq<real>, lags: nat, k: nat)
    requires 1 <= k <= lags && forall j :: 1 <= j <= lags ==> Autocorr(values, j) >= 0.0
    ensures AutocorrSum(values, lags) >= Autocorr(values, k)
  {
    hide Autocorr;
    if k < lags {
      SumOfLags(values, lags - 1, k);
    } else {
      SumNotNegative(values, lags - 1);
    }
  }

  lemma SmallerFactor(x: real, y: real, n: real)
    requires x * y <= n && y > 1.0 && n > 0.0
    ensures x < n
  {
    if x > 0.0 {
      PositiveProduct(x, y - 1.0);
      assert x * (y - 1.0) == x * y - x;
    }
  }

  /** Positive dependence at some lag, and negative at none, leaves fewer samples than values. */
  lemma DependenceShrinks(values: seq<real>, maxLag: int, k: nat)
    requires 1 <= k <= Lags(|values|, maxLag) && Autocorr(values, k) > 0.0
    requires forall j :: 1 <= j <= Lags(|values|, maxLag) ==> Autocorr(values, j) >= 0.0
    ensures EffectiveSampleSize(values, maxLag).Some?
    ensures EffectiveSampleSize(values, maxLag).value < |values| as real
  {
    hide Autocorr, EffectiveSampleSize, AutocorrSum;
    var n, lags := |values| as real, Lags(|values|, maxLag);
    SumOfLags(values, lags, k);
    SampleSizeCases(values, maxLag);
    var inflation, neff := 1.0 + 2.0 * AutocorrSum(values, lags), EffectiveSampleSize(values, maxLag).value;
    if inflation <= n {
      SmallerFactor(neff, inflation, n);
    }
  }

  /** Of equally long data, the more dependent one never has the larger sample size. */
  lemma MoreDependenceFewerSamples(xs: seq<real>, ys: seq<real>, maxLag: int)
    requires xs != [] && |xs| == |ys|
    requires AutocorrSum(xs, Lags(|xs|, maxLag)) <= AutocorrSum(ys, Lags(|ys|, maxLag))
    ensures EffectiveSampleSize(ys, maxLag).value <= EffectiveSampleSize(xs, maxLag).value
  {
    hide AutocorrSum;
    if |xs| > 1 && maxLag > 0 {
      var n, lags := |xs| as real, Lags(|xs|, maxLag);
      NarrowQuotient(n, Max(1.0 + 2.0 * AutocorrSum(xs, lags), 0.000000001),
                     Max(1.0 + 2.0 * AutocorrSum(ys, lags), 0.000000001));
    }
  }

  lemma {:induction false} AutocorrSumOfShape(xs: seq<real>, c: real, d: real, lags: nat)
    requires c != 0.0
    ensures AutocorrSum(Rescaled(xs, c, d), lags) == AutocorrSum(xs, lags)
  {
    hide Autocorr;
    if lags > 0 {
      AutocorrSumOfShape(xs, c, d, lags - 1);
      AutocorrOfShape(xs, c, d, lags);
    }
  }

  /** The sample size does not depend on the unit or the origin of the returns either. */
  lemma SampleSizeOfShape(xs: seq<real>, c: real, d: real, maxLag: int)
    requires c != 0.0
    ensures EffectiveSampleSize(Rescaled(xs, c, d), maxLag) == EffectiveSampleSize(xs, maxLag)
  {
    hide AutocorrSum, Times;
    AutocorrSumOfShape(xs, c, d, Lags(|xs|, maxLag));
  }

  lemma ThreeSum(a: real, b: real, c: real)
    ensures Sum([a, b, c]) == a + b + c
  {
    assert [a, b, c] == ([a] + [b]) + [c];
    SumAppend([a] + [b], c);
    SumAppend([a], b);
    SumAppend([], a);
    assert [] + [a] == [a];
  }

  lemma FourSum(a: real, b: real, c: real, d: real)
    ensures Sum([a, b, c, d]) == a + b + c + d
  {
    ThreeSum(a, b, c);
    assert [a, b, c, d] == [a, b, c] + [d];
    SumAppend([a, b, c], d);
  }

  /** An input: two ups and two downs, each repeated once, count as eight thirds of a sample. */
  lemma FourValues()
    ensures Autocorr([1.0, 1.0, -1.0, -1.0], 1) == 0.25
    ensures EffectiveSampleSize([1.0, 1.0, -1.0, -1.0], 1) == Some(8.0 / 3.0)
  {
    var values := [1.0, 1.0, -1.0, -1.0];
    assert Sum(values) == 0.0 by {
      FourSum(1.0, 1.0, -1.0, -1.0);
    }
    assert Deviations(values) == values;
    assert values[..4] == values && values[0..] == values;
    var lagged, squares := Products(values[..3], values[1..]), Products(values, values);
    assert lagged[0] == 1.0 && lagged[1] == -1.0 && lagged[2] == 1.0;
    assert squares[0] == 1.0 && squares[1] == 1.0 && squares[2] == 1.0 && squares[3] == 1.0;
    assert lagged == [1.0, -1.0, 1.0] && squares == [1.0, 1.0, 1.0, 1.0];
    FourSum(1.0, 1.0, 1.0, 1.0);
    ThreeSum(1.0, -1.0, 1.0);
    assert AutocorrSum(values, 1) == AutocorrSum(values, 0) + Autocorr(values, 1);
  }

  // ---- what the intervals cover --------------------------------------------------------------------

  function Below(v: real): real -> bool {
    (x: real) => x < v
  }

  function UpTo(v: real): real -> bool {
    (x: real) => x <= v
  }

  lemma {:induction false} FilterCounts(xs: seq<real>, p: real -> bool, k: nat)
    requires k <= |xs|
    ensures (forall i :: k <= i < |xs| ==> !p(xs[i])) ==> |Filter(xs, p)| <= k
    ensures (forall i :: 0 <= i < k ==> p(xs[i])) ==> |Filter(xs, p)| >= k
  {
    if xs != [] {
      var n := |xs| - 1;
      FilterCounts(xs[..n], p, if k <= n then k else n);
    }
  }

  lemma SortKeepsCounts(xs: seq<real>, p: real -> bool)
    ensures |Filter(SortAscending(xs), p)| == |Filter(xs, p)|
  {
    SortCommutesWithFilter(xs, (x: real) => x, p);
    SortOrders(Filter(xs, p), (x: real) => x);
  }

  lemma IndexBounds(n: nat, p: real)
    requires n > 0 && 0.0 <= p < 1.0
    ensures 0 <= PercentileIndex(n, p) < n
    ensures PercentileIndex(n, p) as real <= p * n as real < (PercentileIndex(n, p) + 1) as real
  {
    MulNonnegative(p, n as real);
    MulMonotone(p, 1.0, n as real);
    PositiveProduct(1.0 - p, n as real);
    assert (1.0 - p) * n as real == n as real - p * n as real;
  }

  lemma SortedValues(xs: seq<real>)
    ensures Ascending(SortAscending(xs)) && |SortAscending(xs)| == |xs|
  {
  }

  lemma CountsAround(sorted: seq<real>, k: nat)
    requires Ascending(sorted) && k < |sorted|
    ensures |Filter(sorted, Below(sorted[k]))| <= k < |Filter(sorted, UpTo(sorted[k]))|
  {
    hide Filter;
    FilterCounts(sorted, Below(sorted[k]), k);
    FilterCounts(sorted, UpTo(sorted[k]), k + 1);
  }

  /** At most the given part of the values lies below a percentile, and more than that part does not exceed it. */
  lemma PercentileMeaning(xs: seq<real>, p: real)
    requires xs != [] && 0.0 <= p < 1.0
    ensures var v, n := Percentile(SortAscending(xs), p), |xs| as real;
            |Filter(xs, Below(v))| as real <= p * n < |Filter(xs, UpTo(v))| as real
  {
    hide SortAscending, Filter, PercentileIndex, Below, UpTo;
    SortedValues(xs);
    IndexBounds(|xs|, p);
    var k := PercentileIndex(|xs|, p);
    var v := SortAscending(xs)[k];
    CountsAround(SortAscending(xs), k);
    SortKeepsCounts(xs, Below(v));
    SortKeepsCounts(xs, UpTo(v));
  }

  /** Of the bootstrap's resamples, at most 2.5 percent fall short of an interval and fewer than that exceed it. */
  lemma IntervalCovers(xs: seq<real>)
    requires xs != []
    ensures var i, n := IntervalOf(xs), |xs| as real;
            && |Filter(xs, Below(i.low))| as real <= 0.025 * n < |Filter(xs, UpTo(i.low))| as real
            && |Filter(xs, Below(i.high))| as real <= 0.975 * n < |Filter(xs, UpTo(i.high))| as real
  {
    hide Percentile, Filter, SortAscending, Below, UpTo;
    PercentileMeaning(xs, 0.025);
    PercentileMeaning(xs, 0.975);
  }
}
