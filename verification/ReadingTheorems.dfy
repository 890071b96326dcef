/**
 What the volatility, range and volume readings are on the candles themselves.
 */
module ReadingTheorems {
  import opened Numbers
  import opened Collections
  import opened Market
  import opened Indicators

  // ---- true range -----------------------------------------------------------------------

  /** The true range spans the candle and the close before it. */
  lemma TrueRangeIsSpan(h: seq<Candle>, i: nat)
    requires i < |h| && h[i].low <= h[i].high
    ensures TrueRange(h, i) >= h[i].high - h[i].low
    ensures i == 0 ==> TrueRange(h, i) == h[i].high - h[i].low
    ensures i > 0 ==> TrueRange(h, i) == Max(h[i].high, h[i - 1].close) - Min(h[i].low, h[i - 1].close)
  {
  }

  // ---- realized volatility ----------------------------------------------------------------

  function Squares(xs: seq<real>): (r: seq<real>)
    ensures |r| == |xs|
    ensures forall i :: 0 <= i < |r| ==> r[i] == Square(xs[i])
  {
    seq(|xs|, i requires 0 <= i < |xs| => Square(xs[i]))
  }

  lemma SquareOfDifference(x: real, m: real)
    ensures Square(x - m) == Square(x) - 2.0 * (m * x) + m * m
  {
  }

  /** The sum of squared distances to `m` of `n` values with this sum and sum of squares. */
  function Moment(total: real, squares: real, n: real, m: real): real {
    squares - 2.0 * (m * total) + n * (m * m)
  }

  lemma OneMoreDeviation(total: real, squares: real, n: real, x: real, m: real)
    ensures Moment(total, squares, n, m) + Square(x - m) == Moment(total + x, squares + Square(x), n + 1.0, m)
  {
    hide Square;
    SquareOfDifference(x, m);
    assert m * (total + x) == m * total + m * x;
    assert (n + 1.0) * (m * m) == n * (m * m) + m * m;
  }

  lemma LastSquares(xs: seq<real>, m: real)
    requires xs != []
    ensures var n := |xs| - 1;
            && Sum(xs) == Sum(xs[..n]) + xs[n]
            && Sum(Squares(xs)) == Sum(Squares(xs[..n])) + Square(xs[n])
            && Sum(SquaredDeviations(xs, m)) == Sum(SquaredDeviations(xs[..n], m)) + Square(xs[n] - m)
  {
    hide Square;
    var n := |xs| - 1;
    assert SquaredDeviations(xs, m)[..n] == SquaredDeviations(xs[..n], m);
    assert Squares(xs)[..n] == Squares(xs[..n]);
  }

  lemma {:induction false} DeviationsExpand(xs: seq<real>, m: real)
    ensures Sum(SquaredDeviations(xs, m)) == Moment(Sum(xs), Sum(Squares(xs)), |xs| as real, m)
  {
    if xs != [] {
      hide *;
      var n := |xs| - 1;
      DeviationsExpand(xs[..n], m);
      LastSquares(xs, m);
      OneMoreDeviation(Sum(xs[..n]), Sum(Squares(xs[..n])), n as real, xs[n], m);
    }
  }

  /** How far the values scatter: their variance, times the square of their number. */
  function Scatter(xs: seq<real>): real {
    |xs| as real * Sum(Squares(xs)) - Sum(xs) * Sum(xs)
  }

  lemma ScaledVariance(total: real, squares: real, n: real, m: real, v: real)
    requires n > 0.0 && m == total / n && v == Moment(total, squares, n, m) / n
    ensures n * n * v == n * squares - total * total
  {
    var moment := Moment(total, squares, n, m);
    assert m * n == total && v * n == moment;
    assert n * n * v == n * (v * n);
    assert n * (m * total) == total * total;
    assert n * (n * (m * m)) == (m * n) * (m * n);
  }

  /** The variance is the mean of the squares minus the square of the mean. */
  lemma VarianceMeaning(xs: seq<real>)
    requires xs != []
    ensures |xs| as real * |xs| as real * Variance(xs) == Scatter(xs)
  {
    hide Sum, Squares, SquaredDeviations, Moment;
    var m := Mean(xs, |xs|);
    DeviationsExpand(xs, m);
    assert |SquaredDeviations(xs, m)| == |xs|;
    ScaledVariance(Sum(xs), Sum(Squares(xs)), |xs| as real, m, Variance(xs));
  }

  predicate Positive(xs: seq<real>) {
    forall i :: 0 <= i < |xs| ==> xs[i] > 0.0
  }

  /** Between positive closes there is one log return per step, of the later close over the earlier one. */
  lemma {:induction false} LogReturnsAt(log: real -> real, closes: seq<real>)
    requires Positive(closes) && closes != []
    ensures |LogReturns(log, closes)| == |closes| - 1
    ensures forall i :: 0 <= i < |closes| - 1 ==> LogReturns(log, closes)[i] == log(closes[i + 1] / closes[i])
  {
    var n := |closes| - 1;
    if n > 0 {
      LogReturnsAt(log, closes[..n]);
    }
  }

  /** A step that involves a non-positive close contributes nothing. */
  lemma SkippedLogReturn(log: real -> real, closes: seq<real>, close: real)
    requires closes != [] && (close <= 0.0 || closes[|closes| - 1] <= 0.0)
    ensures LogReturns(log, closes + [close]) == LogReturns(log, closes)
  {
    assert (closes + [close])[..|closes|] == closes;
  }

  /** The root of every nonnegative number is its nonnegative square root. */
  ghost predicate ExactRoots(settings: Settings) {
    forall x :: x >= 0.0 ==> settings.sqrt(x) >= 0.0 && settings.sqrt(x) * settings.sqrt(x) == x
  }

  lemma RootOf(settings: Settings, variance: real, v: real)
    requires ExactRoots(settings) && variance >= 0.0 && v == settings.sqrt(variance) * 100.0
    ensures v >= 0.0 && (v / 100.0) * (v / 100.0) == variance
  {
    assert v / 100.0 == settings.sqrt(variance);
  }

  /** `v` percent is the standard deviation of the values. */
  predicate IsDeviation(v: real, xs: seq<real>) {
    v >= 0.0 && |xs| as real * |xs| as real * ((v / 100.0) * (v / 100.0)) == Scatter(xs)
  }

  lemma WindowVolatility(settings: Settings, rs: seq<real>)
    requires ExactRoots(settings) && rs != []
    ensures IsDeviation(VolatilityPct(settings.sqrt, rs), rs)
  {
    hide Variance, Scatter, ExactRoots;
    VarianceMeaning(rs);
    RootOf(settings, Variance(rs), VolatilityPct(settings.sqrt, rs));
  }

  /**
   The volatility reading on positive closes, in percent: with exact roots it is the
   standard deviation of the last `window` log returns.
   */
  lemma VolatilityMeaning(settings: Settings, closes: seq<real>)
    requires settings.Usable() && ExactRoots(settings) && Positive(closes) && closes != []
    ensures var w, v := settings.realizedVolWindow, RealizedVolOf(settings, closes);
            && (v.Some? <==> |closes| > w) && |LogReturns(settings.log, closes)| == |closes| - 1
            && (v.Some? ==> IsDeviation(v.value, LogReturns(settings.log, closes)[|closes| - 1 - w..]))
  {
    hide VolatilityPct, IsDeviation, ExactRoots;
    LogReturnsAt(settings.log, closes);
    var w, v := settings.realizedVolWindow, RealizedVolOf(settings, closes);
    if v.Some? {
      var rs := LastN(LogReturns(settings.log, closes), w);
      assert rs == LogReturns(settings.log, closes)[|closes| - 1 - w..];
      WindowVolatility(settings, rs);
    }
  }

  // ---- relative volume ----------------------------------------------------------------------

  lemma RatioMeaning(volume: real, total: real, n: real, r: real)
    requires n > 0.0 && total > 0.0 && total / n != 0.0 && r == volume / (total / n)
    ensures r * total == volume * n
  {
    var mean := total / n;
    assert r * mean == volume && mean * n == total;
    assert r * (mean * n) == (r * mean) * n;
  }

  /** The relative volume times the volume of the window before it is the volume times the window's length. */
  lemma RelativeVolumeMeaning(window: nat, volumes: seq<real>)
    requires window > 0 && volumes != []
    ensures var n, r := |volumes| - 1, RelativeVolumeOf(window, volumes);
            && (r.Some? <==> n >= window && Sum(volumes[n - window..n]) > 0.0)
            && (r.Some? ==> r.value * Sum(volumes[n - window..n]) == volumes[n] * window as real)
  {
    hide Sum;
    var n, r := |volumes| - 1, RelativeVolumeOf(window, volumes);
    if n >= window {
      var prior := LastN(volumes[..n], window);
      assert prior == volumes[n - window..n];
      if Sum(prior) > 0.0 {
        MeanPositive(prior);
        RatioMeaning(volumes[n], Sum(prior), window as real, r.value);
      }
    }
  }
}
