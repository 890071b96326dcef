/**
 Exactly which settings keep every rising market free of buys and sells. With a fast
 period longer than the slow one the averages order against the market; how far apart a
 rise can pull them is bounded, and the bound decides which confidence can be reached.
 */
module RisingMarkets {
  import opened Numbers
  import opened Collections
  import opened Market
  import opened Indicators
  import opened Trend
  import opened Signals
  import opened Engine
  import opened MarketTheorems
  import opened FallingMarkets

  /** By which part of the slow average the fast one can at most lag behind in a rise. */
  function Lag(settings: Settings): real {
    (settings.emaFastPeriod - settings.emaSlowPeriod) as real / (settings.emaFastPeriod + 1) as real
  }

  lemma LagFraction(f: real, s: real)
    requires 0.0 < s < f
    ensures 0.0 < (f - s) / f < 1.0
    ensures 2.0 / s * (1.0 - (f - s) / f) == 2.0 / f
  {
    var l := (f - s) / f;
    assert l * f == f - s;
    assert 1.0 - l == s / f;
    assert 2.0 / s * (s / f) == 2.0 / f;
  }

  lemma LagOfAlphas(settings: Settings)
    requires settings.Usable() && settings.emaFastPeriod > settings.emaSlowPeriod
    ensures 0.0 < Lag(settings) < 1.0
    ensures Alpha(settings.emaSlowPeriod) * (1.0 - Lag(settings)) == Alpha(settings.emaFastPeriod)
  {
    var f, s := (settings.emaFastPeriod + 1) as real, (settings.emaSlowPeriod + 1) as real;
    assert Lag(settings) == (f - s) / f;
    LagFraction(f, s);
  }

  // ---- how far a rise can pull the averages apart ------------------------------------------

  /** One step of two averages towards a price, in a combination that the price cancels out of. */
  lemma CombinedBlend(f: real, s: real, price: real, aFast: real, aSlow: real)
    ensures aSlow * Blend(f, price, aFast) - aFast * Blend(s, price, aSlow)
         == aSlow * f - aFast * s + aSlow * aFast * (s - f)
  {
  }

  lemma ShareGrows(f: real, s: real, price: real, aFast: real, aSlow: real)
    requires 0.0 < aFast && 0.0 < aSlow && f <= s
    ensures aSlow * Blend(f, price, aFast) - aFast * Blend(s, price, aSlow) >= aSlow * f - aFast * s
  {
    hide Blend;
    CombinedBlend(f, s, price, aFast, aSlow);
    MulNonnegative(aSlow, aFast);
    MulNonnegative(aSlow * aFast, s - f);
  }

  lemma SingleShare(aFast: real, aSlow: real, x: real)
    ensures aSlow * x - aFast * x == (aSlow - aFast) * x
  {
  }

  /** While prices never fall, the average with the smaller weight keeps its share of the other. */
  lemma {:induction false} RisingShare(aFast: real, aSlow: real, prices: seq<real>)
    requires 0.0 < aFast <= aSlow <= 1.0 && prices != [] && NeverFalls(prices)
    ensures aSlow * Smooth(aFast, prices) - aFast * Smooth(aSlow, prices) >= (aSlow - aFast) * prices[0]
  {
    hide Blend;
    var n := |prices| - 1;
    if n > 0 {
      var front := prices[..n];
      RisingShare(aFast, aSlow, front);
      RisingOrders(aSlow, aFast, front);
      ShareGrows(Smooth(aFast, front), Smooth(aSlow, front), prices[n], aFast, aSlow);
    } else {
      SingleShare(aFast, aSlow, prices[0]);
    }
  }

  lemma SameFactor(a: real, x: real, y: real)
    requires a > 0.0 && a * x > a * y
    ensures x > y
  {
    if x <= y {
      MulMonotone(x, y, a);
      assert false;
    }
  }

  lemma QuotientAbove(d: real, s: real, lag: real)
    requires s > 0.0 && d > -(lag * s)
    ensures d / s * 100.0 > -100.0 * lag
  {
    var q := d / s;
    assert q * s == d;
    SameFactor(s, q, -lag);
  }

  /** A lag of the fast average stays strictly below its bound. */
  lemma ShareBoundsLag(f: real, s: real, aFast: real, aSlow: real, lag: real)
    requires 0.0 < aSlow && aSlow * (1.0 - lag) == aFast && s > 0.0 && aSlow * f - aFast * s > 0.0
    ensures DiffPct(f, s) > -100.0 * lag
  {
    assert aFast * s == aSlow * ((1.0 - lag) * s);
    SameFactor(aSlow, f, (1.0 - lag) * s);
    assert f - s > -(lag * s);
    QuotientAbove(f - s, s, lag);
  }

  lemma {:induction false} StartsLowest(prices: seq<real>, i: nat)
    requires i < |prices| && NeverFalls(prices)
    ensures prices[0] <= prices[i]
  {
    if i > 0 {
      StartsLowest(prices, i - 1);
    }
  }

  lemma {:induction false} EndsHighest(prices: seq<real>, i: nat)
    requires i < |prices| && NeverFalls(prices)
    ensures prices[i] <= prices[|prices| - 1]
    decreases |prices| - i
  {
    if i < |prices| - 1 {
      EndsHighest(prices, i + 1);
    }
  }

  lemma PositiveAverage(a: real, prices: seq<real>)
    requires 0.0 < a <= 1.0 && prices != [] && NeverFalls(prices) && prices[0] > 0.0
    ensures Smooth(a, prices) > 0.0
  {
    forall i | 0 <= i < |prices|
      ensures prices[0] <= prices[i] <= prices[|prices| - 1]
    {
      StartsLowest(prices, i);
      EndsHighest(prices, i);
    }
    SmoothInHull(a, prices, prices[0], prices[|prices| - 1]);
  }

  lemma RisingSeparation(aFast: real, aSlow: real, lag: real, prices: seq<real>)
    requires 0.0 < aFast < aSlow <= 1.0 && aSlow * (1.0 - lag) == aFast
    requires prices != [] && NeverFalls(prices) && prices[0] > 0.0
    ensures Smooth(aSlow, prices) > 0.0 && Smooth(aFast, prices) <= Smooth(aSlow, prices)
    ensures DiffPct(Smooth(aFast, prices), Smooth(aSlow, prices)) > -100.0 * lag
  {
    hide Smooth, DiffPct;
    var fast, slow, share := Smooth(aFast, prices), Smooth(aSlow, prices), (aSlow - aFast) * prices[0];
    RisingShare(aFast, aSlow, prices);
    RisingOrders(aSlow, aFast, prices);
    PositiveProduct(aSlow - aFast, prices[0]);
    assert aSlow * fast - aFast * slow >= share > 0.0;
    PositiveAverage(aSlow, prices);
    ShareBoundsLag(fast, slow, aFast, aSlow, lag);
  }

  lemma AlphaBounds(period: nat)
    requires period > 0
    ensures 0.0 < Alpha(period) <= 1.0
  {
  }

  lemma RisingLag(settings: Settings, h: seq<Candle>)
    requires settings.Usable() && settings.emaFastPeriod > settings.emaSlowPeriod && h != []
    requires NeverFalls(Closes(h)) && h[0].close > 0.0
    ensures var fast, slow := EmaOf(settings.emaFastPeriod, Closes(h)), EmaOf(settings.emaSlowPeriod, Closes(h));
            slow > 0.0 && fast <= slow && DiffPct(fast, slow) > -100.0 * Lag(settings)
  {
    hide Smooth, DiffPct, Lag, Alpha;
    FactorsOrdered(settings.emaSlowPeriod, settings.emaFastPeriod);
    AlphaBounds(settings.emaFastPeriod);
    LagOfAlphas(settings);
    RisingSeparation(Alpha(settings.emaFastPeriod), Alpha(settings.emaSlowPeriod), Lag(settings), Closes(h));
  }

  // ---- silence ----------------------------------------------------------------------------

  /** What keeps rising markets silent, read off the settings. */
  predicate QuietInRises(settings: Settings) {
    || !settings.enableSignals || settings.signalMinConfidence > 100
    || settings.emaFastPeriod <= settings.emaSlowPeriod
    || Lag(settings) <= 0.0005
    || settings.signalMinConfidence as real - 40.5 >= 1200.0 * Lag(settings)
  }

  /** A lag within the flat threshold has no direction, and one within the confidence bound decides nothing. */
  lemma LaggingCandleUndecided(settings: Settings, h: seq<Candle>)
    requires settings.Usable() && settings.emaFastPeriod > settings.emaSlowPeriod && h != []
    requires NeverFalls(Closes(h)) && h[0].close > 0.0
    requires Lag(settings) <= 0.0005 || settings.signalMinConfidence as real - 40.5 >= 1200.0 * Lag(settings)
    ensures PressureAt(settings, h) in {None, Some(Neutral)}
  {
    hide EmaOf, RsiOf, RealizedVolOf, RelativeVolumeOf, Wilder, DiffPct, PressureConfidence, Lag;
    RisingLag(settings, h);
    var fast, slow := EmaOf(settings.emaFastPeriod, Closes(h)), EmaOf(settings.emaSlowPeriod, Closes(h));
    DiffSign(fast, slow);
    var s, trend := SnapshotOf(settings, h), TrendOf(settings, h);
    if s.rsi.Some? && s.volRel.Some? && PressureConfidence(trend.value, s) >= settings.signalMinConfidence {
      ConfidenceNeedsStrength(trend.value, s, settings.signalMinConfidence);
    }
  }

  lemma RisingIsSilent(settings: Settings, h: seq<Candle>)
    requires settings.Usable() && NeverFalls(Closes(h)) && QuietInRises(settings)
    requires forall i :: 0 <= i < |h| ==> h[i].close > 0.0
    ensures PressureSilent(settings, h)
  {
    hide PressureAt, Emits, PressureSilent, Lag;
    if !settings.enableSignals {
      DisabledIsSilent(settings, h);
    } else if settings.emaFastPeriod <= settings.emaSlowPeriod {
      MonotoneMarketIsSilent(settings, h);
    } else {
      forall n | 0 < n <= |h|
        ensures PressureAt(settings, h[..n]) in {None, Some(Neutral)}
      {
        assert Closes(h[..n]) == Closes(h)[..n];
        if settings.signalMinConfidence > 100 {
          UnreachableConfidenceUndecided(settings, h[..n]);
        } else {
          LaggingCandleUndecided(settings, h[..n]);
        }
      }
      SilentWhenUndecided(settings, h);
    }
  }

  // ---- a jump -----------------------------------------------------------------------------

  /** An unchanged price, then one jump. */
  function JumpPrices(n: nat, top: real): (r: seq<real>)
    ensures |r| == n + 1
  {
    seq(n + 1, i requires 0 <= i < n + 1 => if i < n then 1.0 else top)
  }

  lemma JumpRises(n: nat, top: real)
    requires n >= 1 && top >= 1.0
    ensures NeverFalls(JumpPrices(n, top)) && forall i :: 0 <= i <= n ==> JumpPrices(n, top)[i] > 0.0
  {
  }

  lemma BlendJump(jump: real, top: real, a: real)
    requires top == 1.0 + jump
    ensures Blend(1.0, top, a) == 1.0 + jump * a
  {
  }

  lemma JumpAverage(a: real, n: nat, jump: real)
    requires 0.0 < a <= 1.0 && n >= 1
    ensures Smooth(a, JumpPrices(n, 1.0 + jump)) == 1.0 + jump * a
  {
    hide Blend;
    var prices := JumpPrices(n, 1.0 + jump);
    SmoothInHull(a, prices[..n], 1.0, 1.0);
    assert Smooth(a, prices[..n]) == 1.0;
    assert Smooth(a, prices) == Blend(1.0, prices[n], a);
    BlendJump(jump, prices[n], a);
  }

  lemma JumpQuotient(s: real, lag: real, t: real, fast: real)
    requires s > 0.0 && fast - s == -((s * t) * lag)
    ensures (fast - s) / s * 100.0 == -100.0 * (lag * t)
  {
    var q := lag * t;
    assert (s * t) * lag == s * q;
    assert (-(s * q)) / s == -q by {
      assert (-q) * s == -(s * q);
    }
  }

  /** A part of the jump's share of the slow average, and of that the lag, is the separation. */
  lemma JumpSeparation(jump: real, aFast: real, aSlow: real, lag: real, t: real)
    requires 0.0 < aSlow <= 1.0 && aSlow * (1.0 - lag) == aFast && 0.0 < t < 1.0 && jump > 0.0
    requires jump * aSlow * (1.0 - t) == t
    ensures 1.0 + jump * aSlow > 0.0
    ensures DiffPct(1.0 + jump * aFast, 1.0 + jump * aSlow) == -100.0 * (lag * t)
  {
    var y := jump * aSlow;
    PositiveProduct(jump, aSlow);
    var s := 1.0 + y;
    assert s * (1.0 - t) == 1.0;
    assert jump * aFast == y * (1.0 - lag);
    assert y == s * t;
    JumpQuotient(s, lag, t, 1.0 + jump * aFast);
  }

  /** How much of the bound a jump has to use, and the jump that does. */
  lemma JumpFor(t: real, aSlow: real) returns (jump: real)
    requires 0.0 < t < 1.0 && aSlow > 0.0
    ensures jump > 0.0 && jump * aSlow * (1.0 - t) == t
  {
    jump := t / (1.0 - t) / aSlow;
    assert jump * aSlow == t / (1.0 - t);
  }

  lemma PartOfLag(bound: real, needed: real) returns (t: real, part: real)
    requires 0.0 < needed < bound
    ensures 0.0 < t < 1.0 && part == bound * t && needed < part < bound
  {
    var r := needed / bound;
    assert bound * r == needed;
    SameFactor(bound, 1.0, r);
    SameFactor(bound, r, 0.0);
    t := (1.0 + r) / 2.0;
    part := bound * t;
    assert part == (bound + needed) / 2.0;
  }

  /** A down trend of this separation, against an RSI of 100, decides a sell. */
  lemma JumpStrength(settings: Settings, separation: real)
    requires separation > 0.0005 && 1200.0 * separation > settings.signalMinConfidence as real - 40.5
    requires settings.signalMinConfidence <= 100
    ensures var strength := Min(2000.0 * separation, 100.0);
            0.0 <= strength <= 100.0 && RoundHalfEven(0.6 * strength + 40.0) >= settings.signalMinConfidence
  {
  }

  lemma JumpTrend(settings: Settings, n: nat, jump: real, t: real, separation: real)
    requires settings.Usable() && settings.emaFastPeriod > settings.emaSlowPeriod && n >= 1
    requires 0.0 < t < 1.0 && jump > 0.0 && jump * Alpha(settings.emaSlowPeriod) * (1.0 - t) == t
    requires separation == Lag(settings) * t && separation > 0.0005
    ensures TrendOf(settings, Bars(JumpPrices(n, 1.0 + jump))).Some?
    ensures var trend := TrendOf(settings, Bars(JumpPrices(n, 1.0 + jump))).value;
            trend.direction == Down && trend.strength == Min(2000.0 * separation, 100.0)
  {
    hide RsiOf, RealizedVolOf, RelativeVolumeOf, Wilder, DiffPct, Smooth, Alpha, JumpPrices, Bars, Lag;
    var aFast, aSlow := Alpha(settings.emaFastPeriod), Alpha(settings.emaSlowPeriod);
    var prices := JumpPrices(n, 1.0 + jump);
    AlphaBounds(settings.emaFastPeriod);
    AlphaBounds(settings.emaSlowPeriod);
    LagOfAlphas(settings);
    JumpAverage(aFast, n, jump);
    JumpAverage(aSlow, n, jump);
    JumpSeparation(jump, aFast, aSlow, Lag(settings), t);
    BarsAt(prices);
  }

  /** No market whose positive closes never fall gets a buy or a sell. */
  ghost predicate SilentWhenRising(settings: Settings)
    requires settings.Usable()
  {
    forall h: seq<Candle> | NeverFalls(Closes(h)) && (forall i :: 0 <= i < |h| ==> h[i].close > 0.0) ::
      PressureSilent(settings, h)
  }

  lemma RisingCanSell(settings: Settings)
    requires settings.Usable() && !QuietInRises(settings)
    ensures !SilentWhenRising(settings)
  {
    hide PressureSilent, TrendOf, PressureAt, RsiOf, JumpPrices, Alpha, Bars, Lag, RoundHalfEven;
    var needed := Max((settings.signalMinConfidence as real - 40.5) / 1200.0, 0.0005);
    LagOfAlphas(settings);
    AlphaBounds(settings.emaSlowPeriod);
    var t, separation := PartOfLag(Lag(settings), needed);
    var jump := JumpFor(t, Alpha(settings.emaSlowPeriod));
    var n := settings.rsiPeriod + settings.relativeVolumeWindow;
    var prices := JumpPrices(n, 1.0 + jump);
    JumpRises(n, 1.0 + jump);
    JumpTrend(settings, n, jump, t, separation);
    JumpStrength(settings, separation);
    RisingRsi(settings.rsiPeriod, prices);
    BarsAt(prices);
    BarsDecide(settings, prices, TrendOf(settings, Bars(prices)).value);
    DecisionIsHeard(settings, Bars(prices), Sell);
  }

  /** For all periods, rising markets are silent for exactly the settings that `QuietInRises` describes. */
  lemma RisingSilenceIff(settings: Settings)
    requires settings.Usable()
    ensures SilentWhenRising(settings) <==> QuietInRises(settings)
  {
    hide PressureSilent, QuietInRises;
    if QuietInRises(settings) {
      forall h: seq<Candle> | NeverFalls(Closes(h)) && (forall i :: 0 <= i < |h| ==> h[i].close > 0.0)
        ensures PressureSilent(settings, h)
      {
        RisingIsSilent(settings, h);
      }
    } else {
      RisingCanSell(settings);
    }
  }
}
