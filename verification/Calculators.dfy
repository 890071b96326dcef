/**
 The incremental calculators. Each keeps the fields the running system keeps, plus
 a ghost history; `Valid` says how the fields follow from that history, and every
 `Update` returns the reading defined in module Indicators for the longer history.
 */
module Calculators {
  import opened Numbers
  import opened Collections
  import opened Market
  import opened Indicators

  class EMA {
    const period: nat
    const alpha: real
    var value: Option<real>
    ghost var prices: seq<real>

    ghost predicate Valid()
      reads this
    {
      && period > 0 && alpha == Alpha(period)
      && value == if prices == [] then None else Some(EmaOf(period, prices))
    }

    constructor (period: nat)
      requires period > 0
      ensures Valid() && prices == [] && this.period == period
    {
      this.period := period;
      alpha := Alpha(period);
      value := None;
      prices := [];
    }

    method Update(price: real) returns (r: real)
      requires Valid()
      modifies this
      ensures Valid() && prices == old(prices) + [price]
      ensures r == EmaOf(period, prices)
    {
      hide Blend, Alpha;
      if value.None? {
        value := Some(price);
      } else {
        value := Some(Blend(value.value, price, alpha));
      }
      prices := prices + [price];
      assert prices[..|prices| - 1] == old(prices);
      r := value.value;
    }
  }

  lemma RsiCold(period: nat, closes: seq<real>)
    requires period > 0 && |closes| <= 1
    ensures Wilder(period, Gains(closes)).None? && Wilder(period, Losses(closes)).None? && RsiOf(period, closes).None?
    ensures Gains(closes) == [] && Losses(closes) == []
  {
  }

  lemma ChangesAppend(closes: seq<real>, close: real)
    requires closes != []
    ensures Gains(closes + [close]) == Gains(closes) + [Gain(closes[|closes| - 1], close)]
    ensures Losses(closes + [close]) == Losses(closes) + [Gain(close, closes[|closes| - 1])]
    ensures |Gains(closes)| == |Losses(closes)| == |closes| - 1
  {
    hide Gain;
  }

  lemma RsiFromChanges(period: nat, closes: seq<real>)
    requires period > 0 && closes != []
    ensures |closes| <= period ==>
              Wilder(period, Gains(closes)).None? && Wilder(period, Losses(closes)).None? && RsiOf(period, closes).None?
    ensures |closes| > period ==>
              && Wilder(period, Gains(closes)).Some? && Wilder(period, Losses(closes)).Some?
              && Wilder(period, Gains(closes)).value >= 0.0 && Wilder(period, Losses(closes)).value >= 0.0
              && (RsiOf(period, closes)
                  == Some(RsiFrom(Wilder(period, Gains(closes)).value, Wilder(period, Losses(closes)).value)))
  {
    hide Mean, Decay, RsiFrom, Gain;
    if |closes| > period {
      WilderNonnegative(period, Gains(closes));
      WilderNonnegative(period, Losses(closes));
    }
  }

  /** How one more close moves the two averages behind the RSI, and the RSI itself. */
  lemma RsiAppend(period: nat, closes: seq<real>, close: real)
    requires period > 0 && closes != []
    ensures var gain, loss := Gain(closes[|closes| - 1], close), Gain(close, closes[|closes| - 1]);
            var gains, losses := Gains(closes), Losses(closes);
            var after := closes + [close];
            && Gains(after) == gains + [gain] && Losses(after) == losses + [loss]
            && |gains| == |losses| == |closes| - 1
            && (|closes| < period ==>
                  Wilder(period, Gains(after)).None? && Wilder(period, Losses(after)).None? && RsiOf(period, after).None?)
            && (|closes| <= period ==> Wilder(period, gains).None? && Wilder(period, losses).None?)
            && (|closes| == period ==>
                  && Wilder(period, Gains(after)) == Some(Mean(Gains(after), period))
                  && Wilder(period, Losses(after)) == Some(Mean(Losses(after), period)))
            && (|closes| > period ==>
                  && Wilder(period, gains).Some? && Wilder(period, losses).Some?
                  && Wilder(period, Gains(after)) == Some(Decay(Wilder(period, gains).value, gain, period))
                  && Wilder(period, Losses(after)) == Some(Decay(Wilder(period, losses).value, loss, period)))
            && (|closes| >= period ==>
                  && Wilder(period, Gains(after)).value >= 0.0 && Wilder(period, Losses(after)).value >= 0.0
                  && RsiOf(period, after)
                  == Some(RsiFrom(Wilder(period, Gains(after)).value, Wilder(period, Losses(after)).value)))
  {
    hide Mean, Decay, RsiFrom, Wilder, RsiOf, Gain, Gains, Losses;
    var last := closes[|closes| - 1];
    ChangesAppend(closes, close);
    RsiFromChanges(period, closes);
    RsiFromChanges(period, closes + [close]);
    WilderAppend(period, Gains(closes), Gain(last, close));
    WilderAppend(period, Losses(closes), Gain(close, last));
  }

  class WilderRSI {
    const period: nat
    var prevClose: Option<real>
    var avgGain: Option<real>
    var avgLoss: Option<real>
    var seedGains: seq<real>
    var seedLosses: seq<real>
    var value: Option<real>
    ghost var closes: seq<real>

    ghost predicate Valid()
      reads this
    {
      && period > 0
      && prevClose == (if closes == [] then None else Some(closes[|closes| - 1]))
      && avgGain == Wilder(period, Gains(closes))
      && avgLoss == Wilder(period, Losses(closes))
      && (avgGain.None? ==> seedGains == Gains(closes) && seedLosses == Losses(closes))
      && value == RsiOf(period, closes)
    }

    constructor (period: nat)
      requires period > 0
      ensures Valid() && closes == [] && this.period == period
    {
      this.period := period;
      prevClose, avgGain, avgLoss, value := None, None, None, None;
      seedGains, seedLosses, closes := [], [], [];
    }

    method Update(close: real) returns (r: Option<real>)
      requires Valid()
      modifies this
      ensures Valid() && closes == old(closes) + [close]
      ensures r == RsiOf(period, closes)
    {
      hide Wilder, Mean, Decay, RsiFrom, RsiOf, Gains, Losses;
      if prevClose.None? {
        RsiCold(period, closes + [close]);
        prevClose := Some(close);
        closes := closes + [close];
        return None;
      }
      RsiAppend(period, closes, close);
      var change := close - prevClose.value;
      var gain, loss := Max(change, 0.0), Max(-change, 0.0);
      prevClose := Some(close);
      closes := closes + [close];
      if avgGain.None? {
        seedGains := seedGains + [gain];
        seedLosses := seedLosses + [loss];
        if |seedGains| < period {
          return None;
        }
        avgGain := Some(Mean(seedGains, period));
        avgLoss := Some(Mean(seedLosses, period));
      } else {
        avgGain := Some(Decay(avgGain.value, gain, period));
        avgLoss := Some(Decay(avgLoss.value, loss, period));
      }
      value := Some(RsiFrom(avgGain.value, avgLoss.value));
      r := value;
    }
  }

  class WilderATR {
    const period: nat
    var prevClose: Option<real>
    var seedTrs: seq<real>
    var avgTr: Option<real>
    var value: Option<real>
    ghost var history: seq<Candle>

    ghost predicate Valid()
      reads this
    {
      && period > 0
      && prevClose == (if history == [] then None else Some(history[|history| - 1].close))
      && avgTr == Wilder(period, TrueRanges(history))
      && (avgTr.None? ==> seedTrs == TrueRanges(history))
      && value == avgTr
    }

    constructor (period: nat)
      requires period > 0
      ensures Valid() && history == [] && this.period == period
    {
      this.period := period;
      prevClose, avgTr, value := None, None, None;
      seedTrs, history := [], [];
    }

    method Update(candle: Candle) returns (r: Option<real>)
      requires Valid()
      modifies this
      ensures Valid() && history == old(history) + [candle]
      ensures r == Wilder(period, TrueRanges(history))
    {
      hide Wilder, Mean, Decay;
      var high, low := candle.high, candle.low;
      var trueRange := high - low;
      if prevClose.Some? {
        trueRange := Max(Max(high - low, Abs(high - prevClose.value)), Abs(low - prevClose.value));
      }
      assert TrueRanges(history + [candle]) == TrueRanges(history) + [trueRange];
      WilderAppend(period, TrueRanges(history), trueRange);
      prevClose := Some(candle.close);
      history := history + [candle];
      if avgTr.None? {
        seedTrs := seedTrs + [trueRange];
        if |seedTrs| < period {
          return None;
        }
        avgTr := Some(Mean(seedTrs, period));
      } else {
        avgTr := Some(Decay(avgTr.value, trueRange, period));
      }
      value := avgTr;
      r := value;
    }
  }

  lemma LogReturnsAppend(log: real -> real, closes: seq<real>, close: real)
    ensures LogReturns(log, closes + [close])
         == if closes != [] && closes[|closes| - 1] > 0.0 && close > 0.0
            then LogReturns(log, closes) + [LogReturn(log, closes[|closes| - 1], close)]
            else LogReturns(log, closes)
  {
    hide LogReturn;
    assert (closes + [close])[..|closes|] == closes;
  }

  lemma RealizedVolFrom(settings: Settings, closes: seq<real>)
    requires settings.realizedVolWindow > 0
    ensures var window := LastN(LogReturns(settings.log, closes), settings.realizedVolWindow);
            RealizedVolOf(settings, closes)
            == if |window| < settings.realizedVolWindow then None else Some(VolatilityPct(settings.sqrt, window))
  {
    hide VolatilityPct, LogReturns;
  }

  /** While one more close leaves the window short, there was no reading before it either. */
  lemma WarmUpOnce(settings: Settings, closes: seq<real>, close: real)
    requires settings.realizedVolWindow > 0
    ensures var window := LastN(LogReturns(settings.log, closes + [close]), settings.realizedVolWindow);
            |window| < settings.realizedVolWindow ==> RealizedVolOf(settings, closes).None?
  {
    hide VolatilityPct, LogReturn, LogReturns;
    LogReturnsAppend(settings.log, closes, close);
  }

  class RealizedVolatility {
    const settings: Settings
    var prevClose: Option<real>
    var logReturns: seq<real>
    var value: Option<real>
    ghost var closes: seq<real>

    ghost predicate Valid()
      reads this
    {
      && settings.realizedVolWindow > 0
      && prevClose == (if closes == [] then None else Some(closes[|closes| - 1]))
      && logReturns == LastN(LogReturns(settings.log, closes), settings.realizedVolWindow)
      && value == RealizedVolOf(settings, closes)
    }

    constructor (settings: Settings)
      requires settings.realizedVolWindow > 0
      ensures Valid() && closes == [] && this.settings == settings
    {
      this.settings := settings;
      prevClose, value := None, None;
      logReturns, closes := [], [];
    }

    method Update(close: real) returns (r: Option<real>)
      requires Valid()
      modifies this
      ensures Valid() && closes == old(closes) + [close]
      ensures r == RealizedVolOf(settings, closes)
    {
      hide VolatilityPct, LogReturn, LogReturns, RealizedVolOf, LastN, PushBounded;
      LogReturnsAppend(settings.log, closes, close);
      RealizedVolFrom(settings, closes + [close]);
      WarmUpOnce(settings, closes, close);
      if prevClose.Some? && prevClose.value > 0.0 && close > 0.0 {
        var x := LogReturn(settings.log, prevClose.value, close);
        PushBoundedIsWindow(LogReturns(settings.log, closes), x, settings.realizedVolWindow);
        logReturns := PushBounded(logReturns, x, settings.realizedVolWindow);
      }
      prevClose := Some(close);
      closes := closes + [close];
      if |logReturns| < settings.realizedVolWindow {
        return None;
      }
      value := Some(VolatilityPct(settings.sqrt, logReturns));
      r := value;
    }
  }

  class RelativeVolume {
    const window: nat
    var prior: seq<real>
    var value: Option<real>
    ghost var volumes: seq<real>

    ghost predicate Valid()
      reads this
    {
      && window > 0
      && prior == LastN(volumes, window)
      && (volumes == [] ==> value.None?)
      && (volumes != [] ==> value == RelativeVolumeOf(window, volumes))
    }

    constructor (window: nat)
      requires window > 0
      ensures Valid() && volumes == [] && this.window == window
    {
      this.window := window;
      prior, value, volumes := [], None, [];
    }

    method Update(volume: real) returns (r: Option<real>)
      requires Valid()
      modifies this
      ensures Valid() && volumes == old(volumes) + [volume]
      ensures r == RelativeVolumeOf(window, volumes)
    {
      hide RatioToMean, Mean, Sum, PushBounded;
      if |prior| < window || Sum(prior) <= 0.0 {
        value := None;
      } else {
        var avg := Mean(prior, |prior|);
        MeanPositive(prior);
        value := if avg > 0.0 then Some(RatioToMean(volume, prior)) else None;
      }
      PushBoundedIsWindow(volumes, volume, window);
      prior := PushBounded(prior, volume, window);
      volumes := volumes + [volume];
      assert volumes[..|volumes| - 1] == old(volumes);
      r := value;
    }
  }

  /** One of each calculator for a single symbol. */
  class SymbolIndicators {
    const settings: Settings
    const emaFast: EMA
    const emaSlow: EMA
    const rsi: WilderRSI
    const atr: WilderATR
    const volRealized: RealizedVolatility
    const volRel: RelativeVolume
    ghost var history: seq<Candle>

    ghost const Repr: set<object>

    ghost predicate Valid()
      reads this, Repr
    {
      && settings.Usable()
      && Repr == {this, emaFast, emaSlow, rsi, atr, volRealized, volRel}
      && emaFast != emaSlow
      && emaFast.Valid() && emaFast.period == settings.emaFastPeriod && emaFast.prices == Closes(history)
      && emaSlow.Valid() && emaSlow.period == settings.emaSlowPeriod && emaSlow.prices == Closes(history)
      && rsi.Valid() && rsi.period == settings.rsiPeriod && rsi.closes == Closes(history)
      && atr.Valid() && atr.period == settings.atrPeriod && atr.history == history
      && volRealized.Valid() && volRealized.settings == settings && volRealized.closes == Closes(history)
      && volRel.Valid() && volRel.window == settings.relativeVolumeWindow && volRel.volumes == Volumes(history)
    }

    constructor (settings: Settings)
      requires settings.Usable()
      ensures Valid() && fresh(Repr) && this in Repr && history == [] && this.settings == settings
    {
      hide EMA.Valid, WilderRSI.Valid, WilderATR.Valid, RealizedVolatility.Valid, RelativeVolume.Valid;
      this.settings := settings;
      var fast := new EMA(settings.emaFastPeriod);
      var slow := new EMA(settings.emaSlowPeriod);
      var r := new WilderRSI(settings.rsiPeriod);
      var a := new WilderATR(settings.atrPeriod);
      var vol := new RealizedVolatility(settings);
      var rel := new RelativeVolume(settings.relativeVolumeWindow);
      emaFast, emaSlow, rsi, atr, volRealized, volRel := fast, slow, r, a, vol, rel;
      history := [];
      Repr := {this, fast, slow, r, a, vol, rel};
    }

    method Update(candle: Candle) returns (s: Snapshot)
      requires Valid()
      modifies Repr
      ensures Valid() && history == old(history) + [candle]
      ensures s == SnapshotOf(settings, history)
    {
      hide WilderRSI.Valid, WilderATR.Valid, RealizedVolatility.Valid, RelativeVolume.Valid;
      hide EmaOf, Wilder, RsiOf, RealizedVolOf, RelativeVolumeOf, TrueRanges;
      var emaSlowPrev := emaSlow.value;
      assert Closes(history + [candle]) == Closes(history) + [candle.close];
      assert Volumes(history + [candle]) == Volumes(history) + [candle.volume];
      var fast := emaFast.Update(candle.close);
      var slow := emaSlow.Update(candle.close);
      var rsiNow := rsi.Update(candle.close);
      var atrNow := atr.Update(candle);
      var vol := volRealized.Update(candle.close);
      var rel := volRel.Update(candle.volume);
      history := history + [candle];
      assert history[..|history| - 1] == old(history);
      s := Snapshot(candle.close, candle.high, candle.low, candle.volume,
                    Some(fast), Some(slow), emaSlowPrev, rsiNow, atrNow, vol, rel);
    }
  }
}
