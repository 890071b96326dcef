/**
 The indicator row of a candle, read off the candles of its symbol: what every written
 column says, and how the columns fit together.
 */
module IndicatorRows {
  import opened Numbers
  import opened Market
  import opened Indicators
  import opened RsiTheorems
  import opened ReadingTheorems
  import opened Trend
  import opened Signals
  import opened SignalTheorems
  import opened Events
  import opened Engine

  /** The row's averages lie between the lowest and the highest close, and the score tells them apart. */
  lemma RowAverages(settings: Settings, id: int, h: seq<Candle>, lo: real, hi: real)
    requires settings.Usable() && h != [] && 0.0 < lo && forall i :: 0 <= i < |h| ==> lo <= h[i].close <= hi
    ensures var row := IndicatorRowOf(settings, id, h);
            && row.symbolId == id && row.ts == h[|h| - 1].ts
            && row.emaFast.Some? && row.emaSlow.Some? && row.trendScore.Some?
            && lo <= row.emaFast.value <= hi && lo <= row.emaSlow.value <= hi
            && (row.trendScore.value > 0.0 <==> row.emaFast.value > 1.0005 * row.emaSlow.value)
            && (row.trendScore.value < 0.0 <==> row.emaFast.value < 0.9995 * row.emaSlow.value)
  {
    hide EmaOf, RsiOf, RealizedVolOf, RelativeVolumeOf, Wilder, ComputeTrend;
    EmaInHull(settings.emaFastPeriod, Closes(h), lo, hi);
    EmaInHull(settings.emaSlowPeriod, Closes(h), lo, hi);
    TrendDirection(SnapshotOf(settings, h));
  }

  lemma WarmMoves(period: nat, closes: seq<real>)
    requires period > 0 && |closes| > period
    ensures Wilder(period, Moves(closes)).Some? && Wilder(period, Rises(closes)).Some?
  {
  }

  /** The row's RSI is the upward share of the smoothed movement. */
  lemma RowRsi(settings: Settings, id: int, h: seq<Candle>)
    requires settings.Usable() && h != []
    ensures var row, p := IndicatorRowOf(settings, id, h), settings.rsiPeriod;
            && (row.rsi.Some? <==> |h| > p)
            && (row.rsi.Some? ==>
                  && Wilder(p, Moves(Closes(h))).Some? && Wilder(p, Rises(Closes(h))).Some?
                  && row.rsi.value * Wilder(p, Moves(Closes(h))).value == 100.0 * Wilder(p, Rises(Closes(h))).value)
  {
    hide EmaOf, RsiOf, RealizedVolOf, RelativeVolumeOf, Wilder, ComputeTrend, Moves, Rises;
    RsiWarm(settings.rsiPeriod, Closes(h));
    if |h| > settings.rsiPeriod {
      RsiIsShare(settings.rsiPeriod, Closes(h));
      WarmMoves(settings.rsiPeriod, Closes(h));
    }
  }

  /** The row's range average is the smoothed span of the candles, and lies between the smallest and the largest. */
  lemma RowAtr(settings: Settings, id: int, h: seq<Candle>, lo: real, hi: real)
    requires settings.Usable() && h != [] && forall i :: 0 <= i < |h| ==> lo <= TrueRange(h, i) <= hi
    ensures var row := IndicatorRowOf(settings, id, h);
            && (row.atr.Some? <==> |h| >= settings.atrPeriod)
            && (row.atr.Some? ==> lo <= row.atr.value <= hi && row.atr == Wilder(settings.atrPeriod, TrueRanges(h)))
  {
    hide EmaOf, RsiOf, RealizedVolOf, RelativeVolumeOf, ComputeTrend, TrueRange;
    if |h| >= settings.atrPeriod {
      WilderInHull(settings.atrPeriod, TrueRanges(h), lo, hi);
    }
  }

  /** The row's volatility is the deviation of the last log returns, and its volume the ratio to the volumes before. */
  lemma RowVolatilityAndVolume(settings: Settings, id: int, h: seq<Candle>)
    requires settings.Usable() && ExactRoots(settings) && h != [] && Positive(Closes(h))
    ensures var row, n, w := IndicatorRowOf(settings, id, h), |h| - 1, settings.realizedVolWindow;
            && (row.volRealized.Some? <==> n >= w) && |LogReturns(settings.log, Closes(h))| == n
            && (row.volRealized.Some? ==>
                  IsDeviation(row.volRealized.value, LogReturns(settings.log, Closes(h))[n - w..]))
    ensures var row, n, w := IndicatorRowOf(settings, id, h), |h| - 1, settings.relativeVolumeWindow;
            && (row.volRel.Some? <==> n >= w && Sum(Volumes(h)[n - w..n]) > 0.0)
            && (row.volRel.Some? ==> row.volRel.value * Sum(Volumes(h)[n - w..n]) == h[n].volume * w as real)
  {
    hide EmaOf, RsiOf, RealizedVolOf, RelativeVolumeOf, Wilder, ComputeTrend, IsDeviation, Sum, ExactRoots;
    VolatilityMeaning(settings, Closes(h));
    RelativeVolumeMeaning(settings.relativeVolumeWindow, Volumes(h));
  }

  /** Signal and event rows carry the symbol's id and the candle's time, one row for each result in order. */
  lemma ResultRows(id: int, ts: int, signals: seq<SignalResult>, events: seq<EventResult>, i: nat)
    ensures |SignalRows(id, ts, signals)| == |signals| && |EventRows(id, ts, events)| == |events|
    ensures i < |signals| ==>
              var row := SignalRows(id, ts, signals)[i]; row.symbolId == id && row.ts == ts && row.signal == signals[i]
    ensures i < |events| ==>
              var row := EventRows(id, ts, events)[i]; row.symbolId == id && row.ts == ts && row.event == events[i]
  {
  }
}
