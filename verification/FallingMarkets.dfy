/**
 Exactly which settings keep every falling market free of buys and sells. The other
 settings are refuted by two families of runs: a drop, then an unchanged price held long
 enough for the averages to separate, at the end of which a last small drop may come.
 */
module FallingMarkets {
  import opened Numbers
  import opened Collections
  import opened Latch
  import opened Market
  import opened Indicators
  import opened Trend
  import opened Signals
  import opened Engine
  import opened MarketTheorems

  // ---- powers of a smoothing factor ------------------------------------------------------

  lemma ProductInUnit(x: real, y: real)
    requires 0.0 <= x <= 1.0 && 0.0 <= y <= 1.0
    ensures 0.0 <= x * y <= 1.0
    ensures x > 0.0 && y > 0.0 ==> x * y > 0.0
  {
    assert x * y <= 1.0 * y;
  }

  lemma {:induction false} PowerBounds(x: real, n: nat)
    requires 0.0 <= x <= 1.0
    ensures 0.0 <= Power(x, n) <= 1.0
    ensures x > 0.0 ==> Power(x, n) > 0.0
  {
    if n > 0 {
      var p := Power(x, n - 1);
      PowerBounds(x, n - 1);
      ProductInUnit(p, x);
      assert Power(x, n) == p * x;
    }
  }

  /** As long as a power stays above 0.9, every further factor takes a fixed amount away. */
  lemma {:induction false} PowerShrinks(r: real, n: nat)
    requires 0.0 <= r < 1.0
    ensures Power(r, n) <= 0.9 || Power(r, n) <= 1.0 - n as real * (0.9 * (1.0 - r))
  {
    if n > 0 {
      var p := Power(r, n - 1);
      PowerShrinks(r, n - 1);
      PowerBounds(r, n - 1);
      if p <= 0.9 {
        assert p * r <= p * 1.0;
      } else {
        MulNonnegative(p - 0.9, 1.0 - r);
        assert p * r == p - p * (1.0 - r);
        assert n as real * (0.9 * (1.0 - r)) == (n - 1) as real * (0.9 * (1.0 - r)) + 0.9 * (1.0 - r);
      }
    }
  }

  lemma TimesAtLeastOne(n: real, d: real)
    requires d > 0.0 && n >= 1.0 / d
    ensures n * d >= 1.0
  {
    assert (1.0 / d) * d == 1.0;
    assert (n - 1.0 / d) * d >= 0.0;
  }

  lemma SmallPower(r: real, least: nat) returns (n: nat)
    requires 0.0 <= r < 1.0
    ensures n >= least && Power(r, n) <= 0.9
  {
    var d := 0.9 * (1.0 - r);
    var enough := (1.0 / d).Floor + 1;
    assert 1.0 / d > 0.0;
    n := if enough > least then enough else least;
    PowerShrinks(r, n);
    TimesAtLeastOne(n as real, d);
  }

  lemma {:induction false} PowerOfQuotient(p: real, q: real, n: nat)
    requires q > 0.0
    ensures Power(p / q, n) * Power(q, n) == Power(p, n)
  {
    if n > 0 {
      PowerOfQuotient(p, q, n - 1);
      var x, y := Power(p / q, n - 1), Power(q, n - 1);
      assert x * (p / q) * (y * q) == (x * y) * ((p / q) * q);
    }
  }

  /** Two smoothing factors eventually separate by any tenth. */
  lemma PowersSeparate(p: real, q: real, least: nat) returns (n: nat)
    requires 0.0 <= p < q <= 1.0
    ensures n >= least && Power(p, n) <= 0.9 * Power(q, n)
  {
    assert 0.0 <= p / q < 1.0;
    n := SmallPower(p / q, least);
    PowerOfQuotient(p, q, n);
    PowerBounds(q, n);
    assert (0.9 - Power(p / q, n)) * Power(q, n) >= 0.0;
  }

  // ---- runs that end in an extreme candle -------------------------------------------------

  /** Candles at the given prices, the last of them on three times the volume. */
  function Bars(prices: seq<real>): (h: seq<Candle>)
    ensures |h| == |prices| && Closes(h) == prices
  {
    seq(|prices|, i requires 0 <= i < |prices| =>
          var c := prices[i];
          Candle("X", i, c, c, c, c, if i == |prices| - 1 then 3.0 else 1.0, 1.0, 1, true, 0.0))
  }

  lemma {:induction false} SumOfOnes(xs: seq<real>)
    requires forall i :: 0 <= i < |xs| ==> xs[i] == 1.0
    ensures Sum(xs) == |xs| as real
  {
    if xs != [] {
      SumOfOnes(xs[..|xs| - 1]);
    }
  }

  lemma MeanOfOnes(xs: seq<real>, n: nat)
    requires |xs| == n > 0 && forall i :: 0 <= i < |xs| ==> xs[i] == 1.0
    ensures Sum(xs) > 0.0 && Mean(xs, n) == 1.0
  {
    SumOfOnes(xs);
    var m := n as real;
    assert m > 0.0 && Sum(xs) == m;
    assert m / m == 1.0;
  }

  lemma BarsAt(prices: seq<real>)
    ensures |Bars(prices)| == |prices| && Closes(Bars(prices)) == prices
    ensures forall i :: 0 <= i < |prices| ==> Bars(prices)[i].close == prices[i]
  {
  }

  lemma BarsVolume(prices: seq<real>, window: nat)
    requires 0 < window < |prices|
    ensures RelativeVolumeOf(window, Volumes(Bars(prices))) == Some(3.0)
  {
    hide Mean, Sum;
    var volumes := Volumes(Bars(prices));
    MeanOfOnes(LastN(volumes[..|volumes| - 1], window), window);
  }

  /** With RSI and volume at their extremes only the trend strength is left to decide confidence. */
  lemma ExtremeConfidence(t: TrendResult, s: Snapshot)
    requires 0.0 <= t.strength <= 100.0 && (s.rsi == Some(0.0) || s.rsi == Some(100.0)) && s.volRel == Some(3.0)
    ensures PressureConfidence(t, s) == RoundHalfEven(0.6 * t.strength + 40.0)
  {
    assert RawConfidence(t.strength, s.rsi.value, 3.0) == 0.6 * t.strength + 40.0;
  }

  /** The pressure a trend against the RSI's extreme decides for. */
  function Against(direction: Direction): Pressure {
    if direction == Up then Buy else Sell
  }

  lemma BarsDecide(settings: Settings, prices: seq<real>, t: TrendResult)
    requires settings.Usable() && settings.relativeVolumeWindow < |prices|
    requires TrendOf(settings, Bars(prices)) == Some(t) && 0.0 <= t.strength <= 100.0
    requires || (t.direction == Up && RsiOf(settings.rsiPeriod, prices) == Some(0.0))
             || (t.direction == Down && RsiOf(settings.rsiPeriod, prices) == Some(100.0))
    requires RoundHalfEven(0.6 * t.strength + 40.0) >= settings.signalMinConfidence
    ensures PressureAt(settings, Bars(prices)) == Some(Against(t.direction))
  {
    hide EmaOf, RsiOf, RealizedVolOf, RelativeVolumeOf, Wilder, ComputeTrend, PressureConfidence, Bars, RoundHalfEven;
    BarsVolume(prices, settings.relativeVolumeWindow);
    ExtremeConfidence(t, SnapshotOf(settings, Bars(prices)));
  }

  /** Whatever is decided last was emitted at some point. */
  lemma {:induction false} DecidedWasFired<C>(run: seq<Option<C>>, idle: C, c: C) returns (i: nat)
    requires c != idle && LastDecisive(run, idle) == c
    ensures i < |run| && Fires(run, idle, i) && run[i] == Some(c)
  {
    var n := |run| - 1;
    if LastDecisive(run[..n], idle) == c {
      i := DecidedWasFired(run[..n], idle, c);
      assert run[..n][..i] == run[..i];
    } else {
      i := n;
    }
  }

  lemma DecisionIsHeard(settings: Settings, h: seq<Candle>, c: Pressure)
    requires settings.Usable() && settings.enableSignals && h != [] && c != Neutral && PressureAt(settings, h) == Some(c)
    ensures !PressureSilent(settings, h)
  {
    hide PressureAt, Emits;
    var run := PressureRun(settings, h);
    assert h[..|h| - 1 + 1] == h;
    assert run[|run| - 1] == Some(c);
    var i := DecidedWasFired(run, Neutral, c);
    PressureEmissionAt(settings, h, i);
  }

  // ---- a drop, then an unchanged price -----------------------------------------------------

  function Price(i: nat, floor: real): real {
    if i == 0 then 1.0 else floor
  }

  function DropPrices(n: nat, floor: real): (r: seq<real>)
    ensures |r| == n + 1
  {
    seq(n + 1, i requires 0 <= i < n + 1 => Price(i, floor))
  }

  /** One more candle at the floor multiplies the distance to it by the smoothing factor. */
  lemma BlendTowards(distance: real, a: real, floor: real)
    ensures Blend(floor + distance, floor, a) == floor + distance * (1.0 - a)
  {
  }

  lemma ScaledPower(scale: real, p: real, factor: real)
    ensures scale * p * factor == scale * (p * factor)
  {
  }

  lemma {:induction false} DropAverage(a: real, n: nat, floor: real)
    ensures Smooth(a, DropPrices(n, floor)) == floor + (1.0 - floor) * Power(1.0 - a, n)
  {
    hide Blend;
    var prices := DropPrices(n, floor);
    if n > 0 {
      DropAverage(a, n - 1, floor);
      assert prices[..n] == DropPrices(n - 1, floor);
      var p := Power(1.0 - a, n - 1);
      BlendTowards((1.0 - floor) * p, a, floor);
      ScaledPower(1.0 - floor, p, 1.0 - a);
      assert prices[n] == floor && Smooth(a, prices[..n]) == floor + (1.0 - floor) * p;
      assert Smooth(a, prices) == Blend(Smooth(a, prices[..n]), floor, a);
      assert Power(1.0 - a, n) == p * (1.0 - a);
    } else {
      assert Power(1.0 - a, n) == 1.0;
      assert (1.0 - floor) * 1.0 == 1.0 - floor;
    }
  }

  lemma {:induction false} WilderOne(xs: seq<real>)
    requires xs != []
    ensures Wilder(1, xs) == Some(xs[|xs| - 1])
  {
    if |xs| == 1 {
      assert xs == [xs[0]] && xs[..0] == [];
      assert Sum(xs) == Sum(xs[..0]) + xs[0];
    } else {
      WilderOne(xs[..|xs| - 1]);
    }
  }

  lemma DropFalls(n: nat, floor: real)
    requires 0.0 < floor <= 1.0
    ensures NeverRises(DropPrices(n, floor)) && forall i :: 0 <= i <= n ==> DropPrices(n, floor)[i] > 0.0
  {
  }

  /** With a period of 1 the RSI forgets the drop as soon as the price stands still. */
  lemma DropRsi(n: nat, floor: real)
    requires n >= 2
    ensures RsiOf(1, DropPrices(n, floor)) == Some(100.0)
  {
    var losses := Losses(DropPrices(n, floor));
    WilderOne(losses);
    assert losses[n - 1] == Gain(floor, floor);
  }

  lemma ScaledQuotient(d: real, slow: real)
    requires slow > 0.0 && d <= -0.05 * slow
    ensures d / slow * 100.0 <= -5.0
  {
    DivMonotone(d, -0.05 * slow, slow);
    assert -0.05 * slow / slow == -0.05;
  }

  lemma Distributed(c: real, x: real)
    ensures (1.0 - c) * x == x - c * x
  {
  }

  /** A floor far below what the slow average still remembers makes the trend point down at full strength. */
  lemma DropSeparation(fast: real, slow: real, p: real, q: real)
    requires 0.0 < q <= 1.0 && 0.0 <= p <= 0.9 * q
    requires fast == 0.01 * q + (1.0 - 0.01 * q) * p && slow == 0.01 * q + (1.0 - 0.01 * q) * q
    ensures slow > 0.0 && DiffPct(fast, slow) <= -5.0
  {
    var c := 0.01 * q;
    var cq := MulShrinks(c, q);
    MulNonnegative(c, p);
    ScaledPower(1.0 - c, 1.0, p);
    Distributed(c, p);
    Distributed(c, q);
    assert slow == c + q - cq && fast == c + p - c * p;
    MulMonotone(p, q, c);
    assert fast - slow <= -0.05 * slow;
    ScaledQuotient(fast - slow, slow);
  }

  lemma DropTrendsDown(settings: Settings, n: nat, floor: real, p: real, q: real)
    requires settings.Usable() && n >= 1 && floor == 0.01 * q && 0.0 < q <= 1.0 && 0.0 <= p <= 0.9 * q
    requires p == Power(1.0 - Alpha(settings.emaFastPeriod), n) && q == Power(1.0 - Alpha(settings.emaSlowPeriod), n)
    ensures var t := TrendOf(settings, Bars(DropPrices(n, floor)));
            t.Some? && t.value.direction == Down && t.value.strength == 100.0
  {
    hide RsiOf, RealizedVolOf, RelativeVolumeOf, Wilder, DiffPct, Smooth, Power, Alpha, DropPrices, Bars;
    var prices := DropPrices(n, floor);
    DropAverage(Alpha(settings.emaFastPeriod), n, floor);
    DropAverage(Alpha(settings.emaSlowPeriod), n, floor);
    DropSeparation(EmaOf(settings.emaFastPeriod, prices), EmaOf(settings.emaSlowPeriod, prices), p, q);
  }

  // ---- a drop, then a last small drop ---------------------------------------------------------

  function SlidePrices(n: nat, floor: real): (r: seq<real>)
    requires n >= 1
    ensures |r| == n + 1
  {
    DropPrices(n, floor)[n := floor / 2.0]
  }

  lemma BlendLower(previous: real, price: real, lower: real, a: real)
    requires lower == price / 2.0
    ensures Blend(previous, lower, a) == Blend(previous, price, a) - a * (price / 2.0)
  {
  }

  lemma SlideAverage(a: real, n: nat, floor: real)
    requires n >= 1
    ensures Smooth(a, SlidePrices(n, floor)) == floor + (1.0 - floor) * Power(1.0 - a, n) - a * (floor / 2.0)
  {
    hide Blend, Power;
    var drop, slide, previous := DropPrices(n, floor), SlidePrices(n, floor), Smooth(a, DropPrices(n, floor)[..n]);
    DropAverage(a, n, floor);
    assert slide[..n] == drop[..n] && drop[n] == floor;
    assert Smooth(a, drop) == Blend(previous, floor, a);
    assert Smooth(a, slide) == Blend(previous, slide[n], a);
    BlendLower(previous, floor, slide[n], a);
  }

  lemma {:induction false} LastPositive(period: nat, xs: seq<real>)
    requires 0 < period <= |xs| && (forall i :: 0 <= i < |xs| ==> xs[i] >= 0.0) && xs[|xs| - 1] > 0.0
    ensures Wilder(period, xs).value > 0.0
  {
    if |xs| == period {
      MeanZero(xs);
      SumNonnegative(xs);
      DivMonotone(0.0, Sum(xs), period as real);
    } else {
      WilderNonnegative(period, xs[..|xs| - 1]);
      WilderStep(Wilder(period, xs[..|xs| - 1]).value, xs[|xs| - 1], period);
    }
  }

  /** A run that never rises and ends in a drop has an RSI of 0, whatever the period. */
  lemma SlideRsi(period: nat, n: nat, floor: real)
    requires 0 < period <= n && 0.0 < floor <= 1.0
    ensures NeverRises(SlidePrices(n, floor)) && RsiOf(period, SlidePrices(n, floor)) == Some(0.0)
  {
    hide Wilder, RsiFrom;
    var prices := SlidePrices(n, floor);
    NoGains(prices);
    WilderZero(period, Gains(prices));
    assert Losses(prices)[n - 1] == Gain(prices[n], prices[n - 1]);
    LastPositive(period, Losses(prices));
    RsiWithoutGains(Wilder(period, Losses(prices)).value);
  }

  lemma SlideIsPositive(n: nat, floor: real)
    requires n >= 1 && floor > 0.0
    ensures forall i :: 0 <= i <= n ==> SlidePrices(n, floor)[i] > 0.0
  {
  }

  lemma ScaledQuotientUp(d: real, slow: real)
    requires slow > 0.0 && d >= 0.05 * slow
    ensures d / slow * 100.0 >= 5.0
  {
    DivMonotone(0.05 * slow, d, slow);
    assert 0.05 * slow / slow == 0.05;
  }

  /** The separation in terms of the products it is made of. */
  lemma SlideDistance(fast: real, slow: real, c: real, p: real, q: real, cp: real, cq: real, eFast: real, eSlow: real)
    requires p > 0.0 && 0.0 <= q <= 0.9 * p && c == 0.01 * p
    requires 0.0 <= cp <= c && 0.0 <= cq <= q && 0.0 <= eFast <= eSlow <= c / 2.0
    requires fast == c + p - cp - eFast && slow == c + q - cq - eSlow
    ensures slow > 0.0 && fast - slow >= 0.05 * slow
  {
  }

  /** When the fast average is the one that remembers longer, the trend points up at full strength. */
  lemma SlideSeparation(fast: real, slow: real, p: real, q: real, aFast: real, aSlow: real)
    requires 0.0 < p <= 1.0 && 0.0 <= q <= 0.9 * p && 0.0 < aFast < aSlow <= 1.0
    requires fast == 0.01 * p + (1.0 - 0.01 * p) * p - aFast * (0.01 * p / 2.0)
    requires slow == 0.01 * p + (1.0 - 0.01 * p) * q - aSlow * (0.01 * p / 2.0)
    ensures slow > 0.0 && DiffPct(fast, slow) >= 5.0
  {
    var c := 0.01 * p;
    var cp := MulShrinks(c, p);
    var cq := MulShrinks(c, q);
    var eFast := MulShrinks(c / 2.0, aFast);
    var eSlow := MulShrinks(c / 2.0, aSlow);
    Distributed(c, p);
    Distributed(c, q);
    MulMonotone(aFast, aSlow, c / 2.0);
    MulMonotone(c, 1.0, q);
    SlideDistance(fast, slow, c, p, q, cp, cq, eFast, eSlow);
    ScaledQuotientUp(fast - slow, slow);
  }

  lemma SlideTrendsUp(settings: Settings, n: nat, floor: real, p: real, q: real)
    requires settings.Usable() && n >= 1 && floor == 0.01 * p && 0.0 < p <= 1.0 && 0.0 <= q <= 0.9 * p
    requires Alpha(settings.emaFastPeriod) < Alpha(settings.emaSlowPeriod)
    requires p == Power(1.0 - Alpha(settings.emaFastPeriod), n) && q == Power(1.0 - Alpha(settings.emaSlowPeriod), n)
    ensures var t := TrendOf(settings, Bars(SlidePrices(n, floor)));
            t.Some? && t.value.direction == Up && t.value.strength == 100.0
  {
    hide RsiOf, RealizedVolOf, RelativeVolumeOf, Wilder, DiffPct, Smooth, Power, SlidePrices, Bars;
    var prices := SlidePrices(n, floor);
    SlideAverage(Alpha(settings.emaFastPeriod), n, floor);
    SlideAverage(Alpha(settings.emaSlowPeriod), n, floor);
    SlideSeparation(EmaOf(settings.emaFastPeriod, prices), EmaOf(settings.emaSlowPeriod, prices), p, q,
                    Alpha(settings.emaFastPeriod), Alpha(settings.emaSlowPeriod));
  }

  // ---- the exact condition --------------------------------------------------------------------

  /** No market whose positive closes never rise gets a buy or a sell. */
  ghost predicate SilentWhenFalling(settings: Settings)
    requires settings.Usable()
  {
    forall h: seq<Candle> | NeverRises(Closes(h)) && (forall i :: 0 <= i < |h| ==> h[i].close > 0.0) ::
      PressureSilent(settings, h)
  }

  lemma EqualPeriodsUndecided(settings: Settings, h: seq<Candle>)
    requires settings.Usable() && settings.emaFastPeriod == settings.emaSlowPeriod && h != []
    ensures PressureAt(settings, h) in {None, Some(Neutral)}
  {
    hide EmaOf, RsiOf, RealizedVolOf, RelativeVolumeOf, Wilder, PressureConfidence;
    var slow := EmaOf(settings.emaSlowPeriod, Closes(h));
    if slow != 0.0 {
      DiffSign(slow, slow);
    }
  }

  lemma UnreachableConfidenceUndecided(settings: Settings, h: seq<Candle>)
    requires settings.Usable() && settings.signalMinConfidence > 100 && h != []
    ensures PressureAt(settings, h) in {None, Some(Neutral)}
  {
    hide EmaOf, RsiOf, RealizedVolOf, RelativeVolumeOf, Wilder, ComputeTrend, RawConfidence;
  }

  /** What keeps falling markets silent, read off the settings. */
  predicate QuietInFalls(settings: Settings) {
    || !settings.enableSignals || settings.signalMinConfidence > 100
    || settings.emaFastPeriod == settings.emaSlowPeriod
    || (settings.emaFastPeriod < settings.emaSlowPeriod && settings.rsiPeriod >= 2)
  }

  lemma DisabledIsSilent(settings: Settings, h: seq<Candle>)
    requires settings.Usable() && !settings.enableSignals
    ensures PressureSilent(settings, h)
  {
    hide Emits;
    forall n | 0 < n <= |h|
      ensures !Emits(settings, h[..n], BuySignal) && !Emits(settings, h[..n], SellSignal)
    {
      NoSignalsWhenDisabled(settings, h[..n]);
    }
  }

  lemma FallingIsSilent(settings: Settings, h: seq<Candle>)
    requires settings.Usable() && NeverRises(Closes(h)) && QuietInFalls(settings)
    ensures PressureSilent(settings, h)
  {
    hide PressureAt, Emits, PressureSilent;
    if !settings.enableSignals {
      DisabledIsSilent(settings, h);
    } else if settings.emaFastPeriod < settings.emaSlowPeriod && settings.rsiPeriod >= 2 {
      MonotoneMarketIsSilent(settings, h);
    } else {
      forall n | 0 < n <= |h|
        ensures PressureAt(settings, h[..n]) in {None, Some(Neutral)}
      {
        if settings.signalMinConfidence > 100 {
          UnreachableConfidenceUndecided(settings, h[..n]);
        } else {
          EqualPeriodsUndecided(settings, h[..n]);
        }
      }
      SilentWhenUndecided(settings, h);
    }
  }

  lemma FactorsOrdered(fast: nat, slow: nat)
    requires 0 < fast < slow
    ensures 0.0 <= 1.0 - Alpha(fast) < 1.0 - Alpha(slow) < 1.0
  {
    var f, s := (fast + 1) as real, (slow + 1) as real;
    assert 2.0 / f - 2.0 / s == 2.0 * (s - f) / (f * s) by {
      assert 2.0 / f == 2.0 * s / (f * s) && 2.0 / s == 2.0 * f / (f * s);
    }
    assert f * s > 0.0 && 2.0 * (s - f) > 0.0;
    assert 2.0 * (s - f) / (f * s) > 0.0;
  }

  /** With an RSI period of 1 a falling market can get a sell. */
  lemma FallingCanSell(settings: Settings)
    requires settings.Usable() && settings.emaFastPeriod < settings.emaSlowPeriod && settings.rsiPeriod == 1
    requires settings.enableSignals && settings.signalMinConfidence <= 100
    ensures !SilentWhenFalling(settings)
  {
    hide PressureSilent, TrendOf, PressureAt, RsiOf, DropPrices, Alpha, Power, Bars;
    var p, q := 1.0 - Alpha(settings.emaFastPeriod), 1.0 - Alpha(settings.emaSlowPeriod);
    FactorsOrdered(settings.emaFastPeriod, settings.emaSlowPeriod);
    var n := PowersSeparate(p, q, settings.relativeVolumeWindow + 1);
    PowerBounds(p, n);
    PowerBounds(q, n);
    var floor := 0.01 * Power(q, n);
    DropTrendsDown(settings, n, floor, Power(p, n), Power(q, n));
    DropRsi(n, floor);
    DropFalls(n, floor);
    var prices := DropPrices(n, floor);
    BarsDecide(settings, prices, TrendOf(settings, Bars(prices)).value);
    BarsAt(prices);
    DecisionIsHeard(settings, Bars(prices), Sell);
  }

  /** With a fast period longer than the slow one it can get a buy. */
  lemma FallingCanBuy(settings: Settings)
    requires settings.Usable() && settings.emaFastPeriod > settings.emaSlowPeriod
    requires settings.enableSignals && settings.signalMinConfidence <= 100
    ensures !SilentWhenFalling(settings)
  {
    hide PressureSilent, TrendOf, PressureAt, RsiOf, SlidePrices, Alpha, Power, Bars;
    var p, q := 1.0 - Alpha(settings.emaFastPeriod), 1.0 - Alpha(settings.emaSlowPeriod);
    FactorsOrdered(settings.emaSlowPeriod, settings.emaFastPeriod);
    var n := PowersSeparate(q, p, settings.relativeVolumeWindow + settings.rsiPeriod);
    PowerBounds(p, n);
    PowerBounds(q, n);
    var floor := 0.01 * Power(p, n);
    SlideTrendsUp(settings, n, floor, Power(p, n), Power(q, n));
    SlideRsi(settings.rsiPeriod, n, floor);
    SlideIsPositive(n, floor);
    var prices := SlidePrices(n, floor);
    BarsDecide(settings, prices, TrendOf(settings, Bars(prices)).value);
    BarsAt(prices);
    DecisionIsHeard(settings, Bars(prices), Buy);
  }

  /** For all periods, falling markets are silent for exactly the settings that `QuietInFalls` describes. */
  lemma FallingSilenceIff(settings: Settings)
    requires settings.Usable()
    ensures SilentWhenFalling(settings) <==> QuietInFalls(settings)
  {
    hide PressureSilent;
    if QuietInFalls(settings) {
      forall h: seq<Candle> | NeverRises(Closes(h))
        ensures PressureSilent(settings, h)
      {
        FallingIsSilent(settings, h);
      }
    } else if settings.emaFastPeriod > settings.emaSlowPeriod {
      FallingCanBuy(settings);
    } else {
      FallingCanSell(settings);
    }
  }
}
