/**
 Incremental indicators. Each reading is first defined as a function of the whole
 price history; the calculators, which keep only what the next candle needs, are
 then proved to return exactly those readings after any number of updates.
 */
module Indicators {
  import opened Numbers
  import opened Collections
  import opened Market

  // ---- readings over the whole history -------------------------------------

  function Alpha(period: nat): (a: real)
    requires period > 0
    ensures 0.0 < a <= 1.0
  {
    2.0 / (period + 1) as real
  }

  function Blend(previous: real, price: real, a: real): real {
    (price - previous) * a + previous
  }

  /** Exponential smoothing with weight `a`, seeded with the first price. */
  function Smooth(a: real, prices: seq<real>): real
    requires prices != []
  {
    var last := prices[|prices| - 1];
    if |prices| == 1 then last
    else
      Blend(Smooth(a, prices[..|prices| - 1]), last, a)
  }

  function EmaOf(period: nat, prices: seq<real>): real
    requires period > 0 && prices != []
  {
    Smooth(Alpha(period), prices)
  }

  function Mean(xs: seq<real>, n: nat): real
    requires n > 0
  {
    Sum(xs) / n as real
  }

  function Decay(previous: real, x: real, period: nat): real
    requires period > 0
  {
    (previous * (period - 1) as real + x) / period as real
  }

  /** Wilder smoothing: the mean of the first `period` values, then a decaying average. */
  function Wilder(period: nat, xs: seq<real>): (r: Option<real>)
    requires period > 0
    ensures r.Some? <==> |xs| >= period
  {
    if |xs| < period then None
    else if |xs| == period then Some(Mean(xs, period))
    else Some(Decay(Wilder(period, xs[..|xs| - 1]).value, xs[|xs| - 1], period))
  }

  lemma WilderAppend(period: nat, xs: seq<real>, x: real)
    requires period > 0
    ensures Wilder(period, xs + [x])
         == if |xs| + 1 < period then None
            else if |xs| + 1 == period then Some(Mean(xs + [x], period))
            else Some(Decay(Wilder(period, xs).value, x, period))
  {
    hide Mean, Decay;
    assert (xs + [x])[..|xs|] == xs;
  }

  function Gain(from: real, to: real): (g: real)
    ensures g >= 0.0
  {
    Max(to - from, 0.0)
  }

  /** The upward part of every price change. */
  function Gains(closes: seq<real>): (r: seq<real>)
    ensures |r| == if closes == [] then 0 else |closes| - 1
    ensures forall i :: 0 <= i < |r| ==> r[i] == Gain(closes[i], closes[i + 1])
  {
    if closes == [] then [] else seq(|closes| - 1, i requires 0 <= i < |closes| - 1 => Gain(closes[i], closes[i + 1]))
  }

  /** The downward part of every price change. */
  function Losses(closes: seq<real>): (r: seq<real>)
    ensures |r| == if closes == [] then 0 else |closes| - 1
    ensures forall i :: 0 <= i < |r| ==> r[i] == Gain(closes[i + 1], closes[i])
  {
    if closes == [] then [] else seq(|closes| - 1, i requires 0 <= i < |closes| - 1 => Gain(closes[i + 1], closes[i]))
  }

  lemma QuotientNonnegative(x: real, y: real)
    requires x >= 0.0 && y > 0.0
    ensures x / y >= 0.0
  {
  }

  lemma QuotientBounds(x: real, y: real)
    requires x >= 0.0 && y >= 1.0
    ensures 0.0 <= x / y <= x
  {
    MulMonotone(1.0, y, x);
    DivMonotone(0.0, x, y);
    DivMonotone(x, x * y, y);
  }

  function RsiFrom(avgGain: real, avgLoss: real): (r: real)
    requires avgGain >= 0.0 && avgLoss >= 0.0
    ensures 0.0 <= r <= 100.0
    ensures avgLoss == 0.0 ==> r == 100.0
    ensures avgGain == 0.0 && avgLoss > 0.0 ==> r == 0.0
  {
    if avgLoss == 0.0 then 100.0
    else
      var rs := avgGain / avgLoss;
      QuotientNonnegative(avgGain, avgLoss);
      QuotientBounds(100.0, 1.0 + rs);
      100.0 - 100.0 / (1.0 + rs)
  }

  /** A smoothing step keeps the sign, and with period >= 2 never forgets a positive average. */
  lemma WilderStep(previous: real, x: real, period: nat)
    requires period > 0 && previous >= 0.0 && x >= 0.0
    ensures Decay(previous, x, period) >= 0.0
    ensures x > 0.0 ==> Decay(previous, x, period) > 0.0
    ensures period >= 2 && previous > 0.0 ==> Decay(previous, x, period) > 0.0
    ensures previous == 0.0 && x == 0.0 ==> Decay(previous, x, period) == 0.0
  {
    assert previous * (period - 1) as real >= 0.0;
    if period >= 2 && previous > 0.0 {
      assert previous * (period - 1) as real >= previous;
    }
  }

  lemma {:induction false} WilderNonnegative(period: nat, xs: seq<real>)
    requires period > 0 && |xs| >= period
    requires forall i :: 0 <= i < |xs| ==> xs[i] >= 0.0
    ensures Wilder(period, xs).value >= 0.0
  {
    if |xs| == period {
      SumNonnegative(xs);
    } else {
      WilderNonnegative(period, xs[..|xs| - 1]);
      WilderStep(Wilder(period, xs[..|xs| - 1]).value, xs[|xs| - 1], period);
    }
  }

  function RsiOf(period: nat, closes: seq<real>): (r: Option<real>)
    requires period > 0
    ensures r.Some? <==> |closes| > period
    ensures r.Some? ==> 0.0 <= r.value <= 100.0
  {
    if |closes| <= period then None
    else
      WilderNonnegative(period, Gains(closes));
      WilderNonnegative(period, Losses(closes));
      Some(RsiFrom(Wilder(period, Gains(closes)).value, Wilder(period, Losses(closes)).value))
  }

  function TrueRange(h: seq<Candle>, i: nat): real
    requires i < |h|
  {
    var c := h[i];
    if i == 0 then c.high - c.low
    else
      var previous := h[i - 1].close;
      Max(Max(c.high - c.low, Abs(c.high - previous)), Abs(c.low - previous))
  }

  function TrueRanges(h: seq<Candle>): (r: seq<real>)
    ensures |r| == |h|
  {
    seq(|h|, i requires 0 <= i < |h| => TrueRange(h, i))
  }

  function LogReturn(log: real -> real, from: real, to: real): real
    requires from > 0.0
  {
    log(to / from)
  }

  /** Log returns between consecutive positive closes; other pairs contribute nothing. */
  function LogReturns(log: real -> real, closes: seq<real>): seq<real> {
    if |closes| < 2 then []
    else
      var front := LogReturns(log, closes[..|closes| - 1]);
      var previous, last := closes[|closes| - 2], closes[|closes| - 1];
      if previous > 0.0 && last > 0.0 then front + [LogReturn(log, previous, last)] else front
  }

  function Square(x: real): (r: real)
    ensures r >= 0.0
  {
    x * x
  }

  function SquaredDeviations(xs: seq<real>, mean: real): (r: seq<real>)
    ensures |r| == |xs|
    ensures forall i :: 0 <= i < |r| ==> r[i] == Square(xs[i] - mean)
  {
    seq(|xs|, i requires 0 <= i < |xs| => Square(xs[i] - mean))
  }

  function Variance(xs: seq<real>): (v: real)
    requires xs != []
    ensures v >= 0.0
  {
    var deviations := SquaredDeviations(xs, Mean(xs, |xs|));
    SumNonnegative(deviations);
    DivMonotone(0.0, Sum(deviations), |xs| as real);
    Mean(deviations, |xs|)
  }

  /** Standard deviation of a window of returns, in percent. */
  function VolatilityPct(sqrt: real -> real, window: seq<real>): real
    requires window != []
  {
    sqrt(Variance(window)) * 100.0
  }

  function RealizedVolOf(settings: Settings, closes: seq<real>): Option<real>
    requires settings.realizedVolWindow > 0
  {
    var window := LastN(LogReturns(settings.log, closes), settings.realizedVolWindow);
    if |window| < settings.realizedVolWindow then None
    else Some(VolatilityPct(settings.sqrt, window))
  }

  lemma MeanPositive(xs: seq<real>)
    requires xs != [] && Sum(xs) > 0.0
    ensures Mean(xs, |xs|) > 0.0
  {
    DivMonotone(0.0, Sum(xs), |xs| as real);
  }

  function RatioToMean(volume: real, prior: seq<real>): real
    requires prior != [] && Sum(prior) > 0.0
  {
    MeanPositive(prior);
    volume / Mean(prior, |prior|)
  }

  function RelativeVolumeOf(window: nat, volumes: seq<real>): Option<real>
    requires window > 0 && volumes != []
  {
    var prior := LastN(volumes[..|volumes| - 1], window);
    if |prior| < window || Sum(prior) <= 0.0 then None
    else Some(RatioToMean(volumes[|volumes| - 1], prior))
  }

  datatype Snapshot = Snapshot(
    close: real,
    high: real,
    low: real,
    volume: real,
    emaFast: Option<real>,
    emaSlow: Option<real>,
    emaSlowPrev: Option<real>,
    rsi: Option<real>,
    atr: Option<real>,
    volRealized: Option<real>,
    volRel: Option<real>)

  /** Everything the indicators say after the last candle of a history. */
  function SnapshotOf(settings: Settings, h: seq<Candle>): Snapshot
    requires settings.Usable() && h != []
  {
    var last := h[|h| - 1];
    Snapshot(last.close, last.high, last.low, last.volume,
             Some(EmaOf(settings.emaFastPeriod, Closes(h))),
             Some(EmaOf(settings.emaSlowPeriod, Closes(h))),
             if |h| == 1 then None else Some(EmaOf(settings.emaSlowPeriod, Closes(h[..|h| - 1]))),
             RsiOf(settings.rsiPeriod, Closes(h)),
             Wilder(settings.atrPeriod, TrueRanges(h)),
             RealizedVolOf(settings, Closes(h)),
             RelativeVolumeOf(settings.relativeVolumeWindow, Volumes(h)))
  }

  lemma RealizedVolNonnegative(settings: Settings, closes: seq<real>)
    requires settings.Usable() && settings.SqrtNonnegative()
    ensures RealizedVolOf(settings, closes).Some? ==> RealizedVolOf(settings, closes).value >= 0.0
  {
    var window := LastN(LogReturns(settings.log, closes), settings.realizedVolWindow);
    if |window| >= settings.realizedVolWindow {
      assert settings.sqrt(Variance(window)) >= 0.0;
    }
  }

  // ---- the EMA against the price range and against a faster EMA --------------

  /** An average with weight in (0, 1] stays between the two averaged values. */
  lemma BlendBetween(previous: real, price: real, a: real, lo: real, hi: real)
    requires 0.0 < a <= 1.0 && lo <= previous <= hi && lo <= price <= hi
    ensures lo <= Blend(previous, price, a) <= hi
  {
    if price >= previous {
      var up := MulShrinks(price - previous, a);
      assert lo <= up + previous <= hi;
    } else {
      var down := MulShrinks(previous - price, a);
      assert down == -((price - previous) * a);
      assert lo <= previous - down <= hi;
    }
  }

  lemma {:induction false} SmoothInHull(a: real, prices: seq<real>, lo: real, hi: real)
    requires 0.0 < a <= 1.0 && prices != []
    requires forall i :: 0 <= i < |prices| ==> lo <= prices[i] <= hi
    ensures lo <= Smooth(a, prices) <= hi
  {
    if |prices| > 1 {
      var front := prices[..|prices| - 1];
      SmoothInHull(a, front, lo, hi);
      BlendBetween(Smooth(a, front), prices[|prices| - 1], a, lo, hi);
    }
  }

  /** Both averages of a run of closes stay inside the range of the closes. */
  lemma EmaInHull(period: nat, prices: seq<real>, lo: real, hi: real)
    requires period > 0 && prices != []
    requires forall i :: 0 <= i < |prices| ==> lo <= prices[i] <= hi
    ensures lo <= EmaOf(period, prices) <= hi
  {
    SmoothInHull(Alpha(period), prices, lo, hi);
  }

  predicate NeverFalls(prices: seq<real>) {
    forall i :: 0 < i < |prices| ==> prices[i - 1] <= prices[i]
  }

  predicate NeverRises(prices: seq<real>) {
    forall i :: 0 < i < |prices| ==> prices[i - 1] >= prices[i]
  }

  lemma BlendOrdered(slow: real, fast: real, price: real, aSlow: real, aFast: real)
    requires 0.0 < aSlow <= aFast <= 1.0 && slow <= fast <= price
    ensures Blend(slow, price, aSlow) <= Blend(fast, price, aFast) <= price
  {
    var far := MulShrinks(price - fast, aFast);
    var near := MulShrinks(price - fast, aSlow);
    var lead := MulShrinks(fast - slow, aSlow);
    MulMonotone(aSlow, aFast, price - fast);
    assert near <= far;
    assert (price - slow) * aSlow == near + lead;
    assert near + lead + slow <= far + fast <= price;
  }

  lemma BlendNegated(previous: real, price: real, a: real)
    ensures Blend(-previous, -price, a) == -Blend(previous, price, a)
  {
    assert (-price - -previous) * a == -((price - previous) * a);
  }

  lemma AlphaOrdered(fast: nat, slow: nat)
    requires 0 < fast <= slow
    ensures Alpha(slow) <= Alpha(fast)
  {
    var f, s := (fast + 1) as real, (slow + 1) as real;
    MulMonotone(f, s, Alpha(fast));
    DivMonotone(2.0, Alpha(fast) * s, s);
    DivMonotone(Alpha(fast) * f, 2.0, f);
    assert Alpha(fast) * s / s == Alpha(fast);
  }

  lemma {:induction false} RisingOrders(aFast: real, aSlow: real, prices: seq<real>)
    requires 0.0 < aSlow <= aFast <= 1.0 && prices != [] && NeverFalls(prices)
    ensures Smooth(aSlow, prices) <= Smooth(aFast, prices) <= prices[|prices| - 1]
  {
    if |prices| > 1 {
      var front := prices[..|prices| - 1];
      RisingOrders(aFast, aSlow, front);
      BlendOrdered(Smooth(aSlow, front), Smooth(aFast, front), prices[|prices| - 1], aSlow, aFast);
    }
  }

  lemma {:induction false} FallingOrders(aFast: real, aSlow: real, prices: seq<real>)
    requires 0.0 < aSlow <= aFast <= 1.0 && prices != [] && NeverRises(prices)
    ensures Smooth(aSlow, prices) >= Smooth(aFast, prices) >= prices[|prices| - 1]
  {
    if |prices| > 1 {
      var front, price := prices[..|prices| - 1], prices[|prices| - 1];
      var slow, fast := Smooth(aSlow, front), Smooth(aFast, front);
      FallingOrders(aFast, aSlow, front);
      BlendOrdered(-slow, -fast, -price, aSlow, aFast);
      BlendNegated(slow, price, aSlow);
      BlendNegated(fast, price, aFast);
    }
  }

  /**
   While prices never fall, the fast average runs between the slow one and the
   price; while they never rise, the order is reversed.
   */
  lemma MonotonePricesOrderEmas(fast: nat, slow: nat, prices: seq<real>)
    requires 0 < fast <= slow && prices != []
    ensures NeverFalls(prices) ==> EmaOf(slow, prices) <= EmaOf(fast, prices)
    ensures NeverRises(prices) ==> EmaOf(slow, prices) >= EmaOf(fast, prices)
  {
    AlphaOrdered(fast, slow);
    if NeverFalls(prices) {
      RisingOrders(Alpha(fast), Alpha(slow), prices);
    }
    if NeverRises(prices) {
      FallingOrders(Alpha(fast), Alpha(slow), prices);
    }
  }

  // ---- the RSI at its extremes ---------------------------------------------

  predicate AllZero(xs: seq<real>) {
    forall i :: 0 <= i < |xs| ==> xs[i] == 0.0
  }

  lemma AllZeroAppend(xs: seq<real>, x: real)
    ensures AllZero(xs + [x]) <==> AllZero(xs) && x == 0.0
  {
    if AllZero(xs + [x]) {
      forall i | 0 <= i < |xs|
        ensures xs[i] == 0.0
      {
        assert (xs + [x])[i] == 0.0;
      }
      assert (xs + [x])[|xs|] == 0.0;
    }
  }

  lemma MeanZero(xs: seq<real>)
    requires xs != [] && forall i :: 0 <= i < |xs| ==> xs[i] >= 0.0
    ensures Mean(xs, |xs|) == 0.0 <==> AllZero(xs)
  {
    SumZero(xs);
    DivMonotone(Sum(xs), Sum(xs), |xs| as real);
  }

  /**
   With period >= 2 a smoothed average of nonnegative values is zero exactly when
   all of them are; with period 1 it remembers only the last one.
   */
  lemma {:induction false} WilderZero(period: nat, xs: seq<real>)
    requires period > 0 && |xs| >= period
    requires forall i :: 0 <= i < |xs| ==> xs[i] >= 0.0
    ensures AllZero(xs) ==> Wilder(period, xs) == Some(0.0)
    ensures period >= 2 && Wilder(period, xs) == Some(0.0) ==> AllZero(xs)
  {
    hide Wilder, Mean, Decay, Sum, AllZero;
    var front, last := xs[..|xs| - 1], xs[|xs| - 1];
    assert xs == front + [last];
    WilderAppend(period, front, last);
    if |xs| == period {
      MeanZero(xs);
    } else {
      AllZeroAppend(front, last);
      WilderZero(period, front);
      WilderNonnegative(period, front);
      WilderStep(Wilder(period, front).value, last, period);
    }
  }

  /** Closes that never fall pin a warm RSI at 100. */
  lemma RisingRsi(period: nat, closes: seq<real>)
    requires period > 0 && |closes| > period && NeverFalls(closes)
    ensures RsiOf(period, closes) == Some(100.0)
  {
    WilderZero(period, Losses(closes));
    WilderNonnegative(period, Gains(closes));
  }

  predicate Constant(xs: seq<real>) {
    forall i :: 0 <= i < |xs| ==> xs[i] == xs[0]
  }

  lemma {:induction false} NeverMoved(closes: seq<real>, i: nat)
    requires i < |closes| && NeverRises(closes)
    requires AllZero(Losses(closes))
    ensures closes[i] == closes[0]
  {
    if i > 0 {
      NeverMoved(closes, i - 1);
      assert Losses(closes)[i - 1] == Gain(closes[i], closes[i - 1]);
    }
  }

  lemma NoGains(closes: seq<real>)
    requires NeverRises(closes)
    ensures AllZero(Gains(closes))
  {
  }

  lemma NoLossesIsConstant(closes: seq<real>)
    requires closes != [] && NeverRises(closes) && AllZero(Losses(closes))
    ensures Constant(closes)
  {
    hide AllZero;
    forall i | 0 <= i < |closes|
      ensures closes[i] == closes[0]
    {
      NeverMoved(closes, i);
    }
  }

  lemma RsiWithoutGains(avgLoss: real)
    requires avgLoss > 0.0
    ensures RsiFrom(0.0, avgLoss) == 0.0
  {
  }

  /** Closes that never rise pin it at 0, unless they never moved at all. */
  lemma FallingRsi(period: nat, closes: seq<real>)
    requires period >= 2 && |closes| > period && NeverRises(closes)
    ensures RsiOf(period, closes) == Some(0.0) || Constant(closes)
  {
    hide Wilder, RsiFrom, AllZero, Constant;
    NoGains(closes);
    WilderZero(period, Gains(closes));
    WilderNonnegative(period, Losses(closes));
    var avgLoss := Wilder(period, Losses(closes)).value;
    if avgLoss == 0.0 {
      WilderZero(period, Losses(closes));
      NoLossesIsConstant(closes);
    } else {
      RsiWithoutGains(avgLoss);
    }
  }
}
