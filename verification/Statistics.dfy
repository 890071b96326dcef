/**
 Autocorrelation, the effective sample size, percentiles and the bootstrap interval of
 the signal-validation harness.
 */
module Statistics {
  import opened Numbers
  import opened Collections
  import opened Indicators
  import opened Sorting

  // ---- autocorrelation ---------------------------------------------------------

  function Deviations(xs: seq<real>): (r: seq<real>)
    requires xs != []
    ensures |r| == |xs|
  {
    var mean := Mean(xs, |xs|);
    seq(|xs|, i requires 0 <= i < |xs| => xs[i] - mean)
  }

  function Times(x: real, y: real): real {
    x * y
  }

  function Products(xs: seq<real>, ys: seq<real>): (r: seq<real>)
    requires |xs| == |ys|
    ensures |r| == |xs|
    ensures forall i :: 0 <= i < |r| ==> r[i] == Times(xs[i], ys[i])
  {
    seq(|xs|, i requires 0 <= i < |xs| => Times(xs[i], ys[i]))
  }

  /** Sum over the pairs `lag` apart of the products of their deviations. */
  function Covariance(ds: seq<real>, lag: nat): real
    requires lag <= |ds|
  {
    Sum(Products(ds[..|ds| - lag], ds[lag..]))
  }

  function Autocorr(values: seq<real>, lag: int): real {
    if lag <= 0 || lag >= |values| then 0.0
    else
      var ds := Deviations(values);
      var variance := Covariance(ds, 0);
      if variance == 0.0 then 0.0 else Covariance(ds, lag) / variance
  }

  lemma ProductBound(x: real, y: real)
    ensures -(Times(x, x) + Times(y, y)) <= 2.0 * Times(x, y) <= Times(x, x) + Times(y, y)
  {
    assert (x - y) * (x - y) == x * x - 2.0 * (x * y) + y * y;
    assert (x + y) * (x + y) == x * x + 2.0 * (x * y) + y * y;
    assert Square(x - y) >= 0.0 && Square(x + y) >= 0.0;
  }

  lemma NoProducts(xs: seq<real>, ys: seq<real>)
    requires xs == ys == []
    ensures Products(xs, ys) == []
  {
  }

  lemma ProductsLast(xs: seq<real>, ys: seq<real>)
    requires |xs| == |ys| > 0
    ensures var n := |xs| - 1;
            Sum(Products(xs, ys)) == Sum(Products(xs[..n], ys[..n])) + Times(xs[n], ys[n])
  {
    hide Times;
    var n := |xs| - 1;
    assert Products(xs, ys)[..n] == Products(xs[..n], ys[..n]);
  }

  /** Twice a sum of products is bounded by the two sums of squares. */
  lemma {:induction false} ProductSumBound(xs: seq<real>, ys: seq<real>)
    requires |xs| == |ys|
    ensures -(Sum(Products(xs, xs)) + Sum(Products(ys, ys)))
         <= 2.0 * Sum(Products(xs, ys))
         <= Sum(Products(xs, xs)) + Sum(Products(ys, ys))
  {
    hide Times, Products;
    if xs == [] {
      assert Products(xs, xs) == [] && Products(ys, ys) == [] && Products(xs, ys) == [] by {
        NoProducts(xs, ys);
      }
    } else {
      var n := |xs| - 1;
      ProductSumBound(xs[..n], ys[..n]);
      ProductsLast(xs, ys);
      ProductsLast(xs, xs);
      ProductsLast(ys, ys);
      ProductBound(xs[n], ys[n]);
    }
  }

  lemma SquaresNonnegative(xs: seq<real>)
    ensures Sum(Products(xs, xs)) >= 0.0
  {
    forall i | 0 <= i < |xs|
      ensures Products(xs, xs)[i] >= 0.0
    {
      assert Products(xs, xs)[i] == Square(xs[i]);
    }
    SumNonnegative(Products(xs, xs));
  }

  lemma SquaresSplit(xs: seq<real>, m: nat)
    requires m <= |xs|
    ensures Sum(Products(xs, xs)) == Sum(Products(xs[..m], xs[..m])) + Sum(Products(xs[m..], xs[m..]))
    ensures Sum(Products(xs[..m], xs[..m])) >= 0.0 && Sum(Products(xs[m..], xs[m..])) >= 0.0
  {
    hide Times;
    assert Products(xs, xs) == Products(xs[..m], xs[..m]) + Products(xs[m..], xs[m..]);
    SumConcat(Products(xs[..m], xs[..m]), Products(xs[m..], xs[m..]));
    SquaresNonnegative(xs[..m]);
    SquaresNonnegative(xs[m..]);
  }

  /** Dropping values from either end of a sequence cannot raise its sum of squares. */
  lemma SquaresOfSlice(xs: seq<real>, lag: nat)
    requires lag <= |xs|
    ensures Sum(Products(xs[..|xs| - lag], xs[..|xs| - lag])) <= Sum(Products(xs, xs))
    ensures Sum(Products(xs[lag..], xs[lag..])) <= Sum(Products(xs, xs))
  {
    var m := |xs| - lag;
    SquaresSplit(xs, m);
    SquaresSplit(xs, lag);
  }

  lemma CovarianceBounded(ds: seq<real>, lag: nat)
    requires lag <= |ds|
    ensures -Covariance(ds, 0) <= Covariance(ds, lag) <= Covariance(ds, 0)
  {
    hide Products, Sum;
    assert ds[..|ds| - 0] == ds && ds[0..] == ds;
    ProductSumBound(ds[..|ds| - lag], ds[lag..]);
    SquaresOfSlice(ds, lag);
  }

  lemma RatioBounded(x: real, y: real)
    requires y > 0.0 && -y <= x <= y
    ensures -1.0 <= x / y <= 1.0
  {
    DivMonotone(x, y, y);
    DivMonotone(-y, x, y);
    assert y / y == 1.0;
    assert -y / y == -(y / y);
  }

  /** Every lag-k autocorrelation lies in [-1, 1]. */
  lemma AutocorrBounded(values: seq<real>, lag: int)
    ensures -1.0 <= Autocorr(values, lag) <= 1.0
  {
    if 0 < lag < |values| {
      var ds := Deviations(values);
      CovarianceBounded(ds, lag);
      SquaresNonnegative(ds);
      assert ds[..|ds| - 0] == ds && ds[0..] == ds;
      var variance := Covariance(ds, 0);
      if variance != 0.0 {
        RatioBounded(Covariance(ds, lag), variance);
      }
    }
  }

  // ---- effective sample size -------------------------------------------------------

  function AutocorrSum(values: seq<real>, lags: nat): real {
    if lags == 0 then 0.0 else AutocorrSum(values, lags - 1) + Autocorr(values, lags)
  }

  function EffectiveSampleSize(values: seq<real>, maxLag: int): Option<real> {
    var n := |values|;
    if n == 0 then None
    else if n == 1 || maxLag <= 0 then Some(n as real)
    else
      var lags := if maxLag < n - 1 then maxLag else n - 1;
      var denom := Max(1.0 + 2.0 * AutocorrSum(values, lags), 0.000000001);
      Some(Min(Max(n as real / denom, 1.0), n as real))
  }

  lemma {:induction false} AutocorrSumBounded(values: seq<real>, lags: nat)
    ensures -(lags as real) <= AutocorrSum(values, lags) <= lags as real
  {
    if lags > 0 {
      AutocorrSumBounded(values, lags - 1);
      AutocorrBounded(values, lags);
    }
  }

  /** A wider positive denominator gives a smaller quotient. */
  lemma NarrowQuotient(n: real, narrow: real, wide: real)
    requires 0.0 < narrow <= wide && n >= 0.0
    ensures n / wide <= n / narrow
    ensures narrow == 1.0 ==> n / wide <= n
  {
    var q := n / narrow;
    DivMonotone(0.0, n, narrow);
    DivMonotone(n, n, narrow);
    MulMonotone(narrow, wide, q);
    assert q * wide == wide * q && q * narrow == narrow * q;
    DivMonotone(n, q * wide, wide);
    assert q * wide / wide == q;
  }

  /**
   At horizon h >= 1, overlap can shrink n samples to no less than n / (2h - 1)
   effective ones, and to no less than one; it never inflates them.
   */
  lemma EffectiveSampleSizeBounds(values: seq<real>, h: nat)
    requires values != [] && h >= 1
    ensures var neff := EffectiveSampleSize(values, h - 1);
            && neff.Some?
            && |values| as real / (2 * h - 1) as real <= neff.value <= |values| as real
            && neff.value >= 1.0
  {
    hide AutocorrSum;
    var n, widest := |values| as real, (2 * h - 1) as real;
    NarrowQuotient(n, 1.0, widest);
    if |values| > 1 && h > 1 {
      var lags := if h - 1 < |values| - 1 then h - 1 else |values| - 1;
      AutocorrSumBounded(values, lags);
      var denom := Max(1.0 + 2.0 * AutocorrSum(values, lags), 0.000000001);
      assert denom <= widest;
      NarrowQuotient(n, denom, widest);
    }
  }

  // ---- percentiles and the bootstrap interval ------------------------------------------

  predicate Ascending(xs: seq<real>) {
    forall i, j :: 0 <= i < j < |xs| ==> xs[i] <= xs[j]
  }

  function SortAscending(xs: seq<real>): (r: seq<real>)
    ensures Ascending(r) && multiset(r) == multiset(xs) && |r| == |xs|
  {
    SortOrders(xs, (x: real) => x);
    SortBy(xs, (x: real) => x)
  }

  function PercentileIndex(n: nat, pct: real): int
    requires n > 0
  {
    var i := (pct * n as real).Floor;
    if n - 1 < i then n - 1 else i
  }

  /** Nearest-rank percentile of an already sorted sequence. */
  function Percentile(sorted: seq<real>, pct: real): (p: real)
    requires sorted != [] && 0.0 <= pct
    ensures p in sorted
  {
    MulNonnegative(pct, |sorted| as real);
    sorted[PercentileIndex(|sorted|, pct)]
  }

  lemma FloorMonotone(x: real, y: real)
    requires x <= y
    ensures x.Floor <= y.Floor
  {
  }

  lemma PercentileMonotone(sorted: seq<real>, p: real, q: real)
    requires sorted != [] && Ascending(sorted) && 0.0 <= p <= q
    ensures Percentile(sorted, p) <= Percentile(sorted, q)
  {
    var n := |sorted| as real;
    assert n > 0.0;
    MulMonotone(p, q, n);
    MulNonnegative(p, n);
    MulNonnegative(q, n);
    FloorMonotone(p * n, q * n);
  }

  function Draws(neff: real): (n: nat)
    ensures n >= 1
    ensures neff >= 1.0 ==> -0.5 <= n as real - neff <= 0.5
  {
    var n := RoundHalfEven(neff);
    if n > 1 then n else 1
  }

  /** A draw of `k` values with replacement. */
  predicate IsResample(draw: seq<real>, pool: seq<real>, k: nat) {
    |draw| == k && forall i :: 0 <= i < k ==> draw[i] in pool
  }

  predicate Within(xs: seq<real>, lo: real, hi: real) {
    forall i :: 0 <= i < |xs| ==> lo <= xs[i] <= hi
  }

  lemma ResampleMeanWithin(draw: seq<real>, pool: seq<real>, k: nat, lo: real, hi: real)
    requires k > 0 && IsResample(draw, pool, k) && Within(pool, lo, hi)
    ensures lo <= Mean(draw, k) <= hi
  {
    forall i | 0 <= i < |draw|
      ensures lo <= draw[i] <= hi
    {
      var j :| 0 <= j < |pool| && pool[j] == draw[i];
    }
    SumBounds(draw, lo, hi);
    QuotientBetween(Sum(draw), k as real, lo, hi);
  }

  lemma SortedWithin(xs: seq<real>, lo: real, hi: real)
    requires Within(xs, lo, hi)
    ensures Within(SortAscending(xs), lo, hi)
  {
    var r := SortAscending(xs);
    forall i | 0 <= i < |r|
      ensures lo <= r[i] <= hi
    {
      assert r[i] in multiset(r);
    }
  }

  datatype Interval = Interval(low: real, high: real)

  function IntervalOf(xs: seq<real>): Interval
    requires xs != []
  {
    var sorted := SortAscending(xs);
    Interval(Percentile(sorted, 0.025), Percentile(sorted, 0.975))
  }

  lemma IntervalWithin(xs: seq<real>, lo: real, hi: real)
    requires xs != [] && Within(xs, lo, hi)
    ensures lo <= IntervalOf(xs).low <= IntervalOf(xs).high <= hi
  {
    SortedWithin(xs, lo, hi);
    PercentileMonotone(SortAscending(xs), 0.025, 0.975);
  }

  /** The mean of every resample of `k` values. */
  function ResampleMeans(draws: seq<seq<real>>, k: nat): (r: seq<real>)
    requires k > 0
    ensures |r| == |draws|
  {
    seq(|draws|, i requires 0 <= i < |draws| => Mean(draws[i], k))
  }

  function Differences(xs: seq<real>, ys: seq<real>): (r: seq<real>)
    requires |xs| == |ys|
    ensures |r| == |xs|
  {
    seq(|xs|, i requires 0 <= i < |xs| => xs[i] - ys[i])
  }

  /**
   Bootstrap intervals for the mean return and its edge over the baseline. `sig` and
   `base` are what the random generator drew, one resample of each pool per iteration.
   The intervals are those of the resample means and of their differences, and whatever
   was drawn, they are ordered and stay inside the range of the data.
   */
  method BootstrapCi(signals: seq<real>, baseline: seq<real>, signalNeff: real, baselineNeff: real,
                     sig: seq<seq<real>>, base: seq<seq<real>>,
                     ghost sLo: real, ghost sHi: real, ghost bLo: real, ghost bHi: real)
    returns (mean: Interval, edge: Interval)
    requires |sig| == |base| > 0
    requires forall i :: 0 <= i < |sig| ==> IsResample(sig[i], signals, Draws(signalNeff))
    requires forall i :: 0 <= i < |base| ==> IsResample(base[i], baseline, Draws(baselineNeff))
    requires Within(signals, sLo, sHi) && Within(baseline, bLo, bHi)
    ensures mean == IntervalOf(ResampleMeans(sig, Draws(signalNeff)))
    ensures edge == IntervalOf(Differences(ResampleMeans(sig, Draws(signalNeff)), ResampleMeans(base, Draws(baselineNeff))))
    ensures sLo <= mean.low <= mean.high <= sHi
    ensures sLo - bHi <= edge.low <= edge.high <= sHi - bLo
  {
    hide Mean, IntervalOf;
    var sigN, baseN := Draws(signalNeff), Draws(baselineNeff);
    var means, edges := [], [];
    for i := 0 to |sig|
      invariant |means| == |edges| == i
      invariant forall k :: 0 <= k < i ==> means[k] == Mean(sig[k], sigN)
      invariant forall k :: 0 <= k < i ==> edges[k] == means[k] - Mean(base[k], baseN)
      invariant Within(means, sLo, sHi) && Within(edges, sLo - bHi, sHi - bLo)
    {
      var sigMean, baseMean := Mean(sig[i], sigN), Mean(base[i], baseN);
      ResampleMeanWithin(sig[i], signals, sigN, sLo, sHi);
      ResampleMeanWithin(base[i], baseline, baseN, bLo, bHi);
      means := means + [sigMean];
      edges := edges + [sigMean - baseMean];
    }
    assert means == ResampleMeans(sig, sigN);
    assert edges == Differences(means, ResampleMeans(base, baseN));
    mean, edge := IntervalOf(means), IntervalOf(edges);
    IntervalWithin(means, sLo, sHi);
    IntervalWithin(edges, sLo - bHi, sHi - bLo);
  }
}
