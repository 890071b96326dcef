/**
 What the regime tags and the captured signals of a replay say about the candles.
 */
module ReplayTheorems {
  import opened Numbers
  import opened Collections
  import opened Market
  import opened Indicators
  import opened Trend
  import opened Signals
  import opened SignalTheorems
  import opened Engine
  import opened ForwardReturns
  import opened Replay

  predicate PositiveCloses(h: seq<Candle>) {
    forall i :: 0 <= i < |h| ==> h[i].close > 0.0
  }

  lemma {:induction false} AveragePositive(a: real, prices: seq<real>)
    requires 0.0 < a <= 1.0 && prices != [] && forall i :: 0 <= i < |prices| ==> prices[i] > 0.0
    ensures Smooth(a, prices) > 0.0
  {
    var n := |prices| - 1;
    if n > 0 {
      AveragePositive(a, prices[..n]);
      var before := Smooth(a, prices[..n]);
      var lo := Min(before, prices[n]);
      BlendBetween(before, prices[n], a, lo, Max(before, prices[n]));
    }
  }

  lemma SlowAveragePositive(settings: Settings, h: seq<Candle>)
    requires settings.Usable() && h != [] && PositiveCloses(h)
    ensures EmaOf(settings.emaSlowPeriod, Closes(h)) > 0.0
  {
    AveragePositive(Alpha(settings.emaSlowPeriod), Closes(h));
  }

  /**
   The regime of a candle: the trend by the 0.05 percent band around the slow average,
   the volatility high from the threshold on and low up to a third of it.
   */
  lemma TagMeaning(settings: Settings, h: seq<Candle>)
    requires settings.Usable() && h != [] && PositiveCloses(h) && settings.highVolatilityPct > 0.0
    ensures var fast, slow := EmaOf(settings.emaFastPeriod, Closes(h)), EmaOf(settings.emaSlowPeriod, Closes(h));
            var tag, vol, threshold := TagOf(settings, h), RealizedVolOf(settings, Closes(h)), settings.highVolatilityPct;
            && tag.trend == TrendIs(if fast > 1.0005 * slow then Up else if fast < 0.9995 * slow then Down else Flat)
            && (tag.vol == VolUnknown <==> vol.None?)
            && (tag.vol == VolHigh <==> vol.Some? && vol.value >= threshold)
            && (tag.vol == VolLow <==> vol.Some? && 3.0 * vol.value <= threshold)
            && (tag.vol == VolNormal <==> vol.Some? && threshold / 3.0 < vol.value < threshold)
  {
    hide EmaOf, RsiOf, RealizedVolOf, RelativeVolumeOf, Wilder, ComputeTrend, Settings.Usable;
    SlowAveragePositive(settings, h);
    TrendDirection(SnapshotOf(settings, h));
    var trend := TrendOf(settings, h).value.direction;
    assert trend.Up? || trend.Down? || trend.Flat?;
  }

  /** Entry `e` was captured at candle `i`: a signal of that candle, and the growth from its entry on. */
  predicate CapturedAt(settings: Settings, candles: seq<Candle>, i: nat, horizons: seq<int>, lag: nat, intervalMs: int,
                       e: Entry)
    requires settings.Usable() && i < |candles|
  {
    && e.core.ts == candles[i].ts && e.core.close == candles[i].close
    && settings.signalMinConfidence <= e.core.confidence <= 100
    && (match e.core.kind
        case BuySignal => PressureAt(settings, candles[..i + 1]) == Some(Buy)
        case SellSignal => PressureAt(settings, candles[..i + 1]) == Some(Sell)
        case HighvolSignal => HighvolAt(settings, candles[..i + 1]) == Some(High))
    && e.fwdReturns.Keys == (set h | h in horizons)
    && forall h :: h in e.fwdReturns && e.fwdReturns[h].Some? ==>
         && i + lag < |candles| && TargetIndex(candles, i + lag, h, intervalMs) < |candles|
         && (candles[i + lag].close * (1.0 + e.fwdReturns[h].value)
             == candles[TargetIndex(candles, i + lag, h, intervalMs)].close)
  }

  lemma SignalIsDecision(settings: Settings, h: seq<Candle>, k: nat)
    requires settings.Usable() && h != [] && k < |SignalsOf(settings, h)|
    ensures match SignalsOf(settings, h)[k].kind
            case BuySignal => PressureAt(settings, h) == Some(Buy)
            case SellSignal => PressureAt(settings, h) == Some(Sell)
            case HighvolSignal => HighvolAt(settings, h) == Some(High)
  {
    hide SnapshotOf, TrendOf, PressureDecision, HighvolDecision, PressureRun, HighvolRun;
    hide PressureConfidence, HighvolConfidence;
    var d := HighvolAt(settings, h);
    assert d.Some? ==> d.value.Normal? || d.value.High?;
  }

  lemma EntryCapturedAt(settings: Settings, candles: seq<Candle>, i: nat, horizons: seq<int>, lag: nat, intervalMs: int,
                        k: nat)
    requires settings.Usable() && i < |candles| && PositiveCloses(candles)
    requires k < |EntriesAt(settings, candles, i, horizons, lag, intervalMs)|
    ensures CapturedAt(settings, candles, i, horizons, lag, intervalMs,
                       EntriesAt(settings, candles, i, horizons, lag, intervalMs)[k])
  {
    hide SignalsOf, PressureAt, HighvolAt, ForwardReturn, TargetIndex, EmaOf, PressureRun;
    var h := candles[..i + 1];
    SlowAveragePositive(settings, h);
    SignalsWellFormed(settings, h, k);
    SignalIsDecision(settings, h, k);
    forall x | x in horizons && ForwardReturn(candles, i, x, lag, intervalMs).Some?
      ensures i + lag < |candles| && TargetIndex(candles, i + lag, x, intervalMs) < |candles|
      ensures candles[i + lag].close * (1.0 + ForwardReturn(candles, i, x, lag, intervalMs).value)
           == candles[TargetIndex(candles, i + lag, x, intervalMs)].close
    {
      ReturnIsGrowth(candles, i, x, lag, intervalMs);
    }
  }

  /** Every captured entry shows a decision of some candle, its close, and what an investment would have grown to. */
  lemma {:induction false} CapturedMeaning(settings: Settings, candles: seq<Candle>, n: nat, horizons: seq<int>, lag: nat,
                                           intervalMs: int, k: nat) returns (i: nat)
    requires settings.Usable() && n <= |candles| && PositiveCloses(candles)
    requires k < |Captured(settings, candles, n, horizons, lag, intervalMs)|
    ensures i < n && CapturedAt(settings, candles, i, horizons, lag, intervalMs,
                                Captured(settings, candles, n, horizons, lag, intervalMs)[k])
  {
    hide CapturedAt, EntriesAt;
    var before := Captured(settings, candles, n - 1, horizons, lag, intervalMs);
    if k < |before| {
      i := CapturedMeaning(settings, candles, n - 1, horizons, lag, intervalMs, k);
    } else {
      i := n - 1;
      EntryCapturedAt(settings, candles, i, horizons, lag, intervalMs, k - |before|);
    }
  }
}
