/**
 What trend, confidence and signals say about the prices: thresholds between the two
 averages, the closed form of the confidence, and the fields of an emitted signal.
 */
module SignalTheorems {
  import opened Numbers
  import opened Collections
  import opened Latch
  import opened Market
  import opened Indicators
  import opened Trend
  import opened Signals
  import opened Engine

  // ---- the trend of two averages ----------------------------------------------------------

  /** With a positive slow average, the separation is the percentage by which the fast one exceeds it. */
  lemma DiffMeaning(fast: real, slow: real, pct: real)
    requires slow > 0.0
    ensures DiffPct(fast, slow) * slow == 100.0 * (fast - slow)
    ensures DiffPct(fast, slow) > pct <==> 100.0 * (fast - slow) > pct * slow
    ensures DiffPct(fast, slow) < pct <==> 100.0 * (fast - slow) < pct * slow
  {
    var q := (fast - slow) / slow;
    var d := q * 100.0;
    assert q * slow == fast - slow;
    assert d * slow == 100.0 * (fast - slow);
    if d > pct {
      PositiveProduct(d - pct, slow);
      assert (d - pct) * slow == d * slow - pct * slow;
    } else if d < pct {
      PositiveProduct(pct - d, slow);
      assert (pct - d) * slow == pct * slow - d * slow;
    }
  }

  /** The trend is up (down) iff the fast average is more than 0.05 percent above (below) the slow one. */
  lemma TrendDirection(s: Snapshot)
    requires s.emaFast.Some? && s.emaSlow.Some? && s.emaSlow.value > 0.0
    ensures var fast, slow, trend := s.emaFast.value, s.emaSlow.value, ComputeTrend(s);
            && trend.Some?
            && (trend.value.direction == Up <==> fast > 1.0005 * slow)
            && (trend.value.direction == Down <==> fast < 0.9995 * slow)
            && (trend.value.score > 0.0 <==> trend.value.direction == Up)
            && (trend.value.score < 0.0 <==> trend.value.direction == Down)
  {
    hide DiffPct;
    DiffMeaning(s.emaFast.value, s.emaSlow.value, 0.05);
    DiffMeaning(s.emaFast.value, s.emaSlow.value, -0.05);
  }

  /** The strength is twenty points per percent of separation, and full from five percent on. */
  lemma TrendStrength(s: Snapshot)
    requires s.emaFast.Some? && s.emaSlow.Some? && s.emaSlow.value > 0.0
    ensures var fast, slow, trend := s.emaFast.value, s.emaSlow.value, ComputeTrend(s);
            && trend.Some? && 0.0 <= trend.value.strength <= 100.0
            && (Abs(fast - slow) >= 0.05 * slow ==> trend.value.strength == 100.0)
            && (Abs(fast - slow) <= 0.05 * slow ==> trend.value.strength * slow == 2000.0 * Abs(fast - slow))
            && (trend.value.direction != Flat ==> Abs(trend.value.score) == trend.value.strength)
  {
    hide DiffPct;
    var fast, slow := s.emaFast.value, s.emaSlow.value;
    var d := DiffPct(fast, slow);
    DiffMeaning(fast, slow, 5.0);
    DiffMeaning(fast, slow, -5.0);
    DiffMeaning(fast, slow, 0.0);
    assert Abs(d) * slow == 100.0 * Abs(fast - slow) by {
      if d < 0.0 {
        assert (-d) * slow == -(d * slow);
      }
    }
    assert (20.0 * Abs(d)) * slow == 20.0 * (Abs(d) * slow);
  }

  /** The slope is the percentage by which the slow average has moved since the candle before. */
  lemma TrendSlope(settings: Settings, h: seq<Candle>)
    requires settings.Usable() && h != [] && EmaOf(settings.emaSlowPeriod, Closes(h)) > 0.0
    ensures TrendOf(settings, h).Some? && (|h| == 1 ==> TrendOf(settings, h).value.slope == 0.0)
    ensures |h| > 1 && EmaOf(settings.emaSlowPeriod, Closes(h[..|h| - 1])) > 0.0 ==>
              var before := EmaOf(settings.emaSlowPeriod, Closes(h[..|h| - 1]));
              var now := EmaOf(settings.emaSlowPeriod, Closes(h));
              TrendOf(settings, h).value.slope * before == 100.0 * (now - before)
  {
    hide DiffPct, EmaOf, RsiOf, RealizedVolOf, RelativeVolumeOf, Wilder;
    if |h| > 1 && EmaOf(settings.emaSlowPeriod, Closes(h[..|h| - 1])) > 0.0 {
      DiffMeaning(EmaOf(settings.emaSlowPeriod, Closes(h)), EmaOf(settings.emaSlowPeriod, Closes(h[..|h| - 1])), 0.0);
    }
  }

  // ---- confidence ------------------------------------------------------------------------------

  /** The excess of the relative volume over one, as far as two. */
  function VolumeExcess(volRel: real): (x: real)
    ensures 0.0 <= x <= 2.0
  {
    if volRel <= 1.0 then 0.0 else if volRel >= 3.0 then 2.0 else volRel - 1.0
  }

  /**
   The confidence is, up to rounding, 60 points for the strength, 20 for the distance of
   the RSI from 50, and 20 for a volume that reaches three times the usual.
   */
  lemma ConfidenceMeaning(trend: TrendResult, s: Snapshot)
    requires s.rsi.Some? && s.volRel.Some? && 0.0 <= trend.strength <= 100.0 && 0.0 <= s.rsi.value <= 100.0
    ensures var points := 0.6 * trend.strength + 0.4 * Abs(s.rsi.value - 50.0) + 10.0 * VolumeExcess(s.volRel.value);
            0.0 <= points <= 100.0 && -0.5 <= PressureConfidence(trend, s) as real - points <= 0.5
  {
  }

  lemma RoundingMonotone(x: real, y: real)
    requires x <= y
    ensures RoundHalfEven(x) <= RoundHalfEven(y)
  {
  }

  /** More strength, an RSI farther from the middle and more volume never lower it. */
  lemma ConfidenceMonotone(trend: TrendResult, s: Snapshot, trend': TrendResult, s': Snapshot)
    requires s.rsi.Some? && s.volRel.Some? && s'.rsi.Some? && s'.volRel.Some?
    requires trend.strength <= trend'.strength && Abs(s.rsi.value - 50.0) <= Abs(s'.rsi.value - 50.0)
    requires s.volRel.value <= s'.volRel.value
    ensures PressureConfidence(trend, s) <= PressureConfidence(trend', s')
  {
    hide RoundHalfEven;
    RoundingMonotone(Min(Max(RawConfidence(trend.strength, s.rsi.value, s.volRel.value), 0.0), 100.0),
                     Min(Max(RawConfidence(trend'.strength, s'.rsi.value, s'.volRel.value), 0.0), 100.0));
  }

  // ---- decisions in terms of the readings ----------------------------------------------------------

  /** Both optional readings of a pressure decision are there. */
  predicate Warm(settings: Settings, h: seq<Candle>)
    requires settings.Usable() && h != []
  {
    |h| > settings.rsiPeriod && RelativeVolumeOf(settings.relativeVolumeWindow, Volumes(h)).Some?
  }

  predicate PointsUp(settings: Settings, h: seq<Candle>)
    requires settings.Usable() && h != [] && Warm(settings, h)
  {
    && EmaOf(settings.emaFastPeriod, Closes(h)) > 1.0005 * EmaOf(settings.emaSlowPeriod, Closes(h))
    && RsiOf(settings.rsiPeriod, Closes(h)).value < 70.0
  }

  predicate PointsDown(settings: Settings, h: seq<Candle>)
    requires settings.Usable() && h != [] && Warm(settings, h)
  {
    && EmaOf(settings.emaFastPeriod, Closes(h)) < 0.9995 * EmaOf(settings.emaSlowPeriod, Closes(h))
    && RsiOf(settings.rsiPeriod, Closes(h)).value > 30.0
  }

  lemma RsiWarm(period: nat, closes: seq<real>)
    requires period > 0
    ensures RsiOf(period, closes).Some? <==> |closes| > period
  {
  }

  /**
   A candle is decisively a buy iff the fast average is above the slow one, the RSI is
   not overbought, and the confidence suffices; a sell the other way round; and neutral
   iff it points neither way.
   */
  lemma PressureMeaning(settings: Settings, h: seq<Candle>)
    requires settings.Usable() && h != [] && EmaOf(settings.emaSlowPeriod, Closes(h)) > 0.0
    ensures !Warm(settings, h) ==> PressureAt(settings, h) == None
    ensures Warm(settings, h) ==>
              var s, d := SnapshotOf(settings, h), PressureAt(settings, h);
              && s.rsi.Some? && s.volRel.Some? && TrendOf(settings, h).Some?
              && var sure := PressureConfidence(TrendOf(settings, h).value, s) >= settings.signalMinConfidence;
                 && (d == Some(Buy) <==> PointsUp(settings, h) && sure)
                 && (d == Some(Sell) <==> PointsDown(settings, h) && sure)
                 && (d == Some(Neutral) <==> !PointsUp(settings, h) && !PointsDown(settings, h))
  {
    hide EmaOf, RsiOf, RealizedVolOf, RelativeVolumeOf, Wilder, ComputeTrend, PressureConfidence;
    assert RsiOf(settings.rsiPeriod, Closes(h)).Some? <==> |h| > settings.rsiPeriod by {
      RsiWarm(settings.rsiPeriod, Closes(h));
    }
    TrendDirection(SnapshotOf(settings, h));
  }

  // ---- high volatility --------------------------------------------------------------------------------

  lemma WholeHundred()
    ensures RoundHalfEven(100.0) == 100
  {
  }

  lemma WholeFifty(ratio: real)
    requires 1.0 <= ratio <= 2.0
    ensures 50 <= RoundHalfEven(ratio * 50.0) <= 100
    ensures -0.5 <= RoundHalfEven(ratio * 50.0) as real - 50.0 * ratio <= 0.5
  {
  }

  /** The confidence of a high reading: 50 at the threshold, full from twice the threshold on. */
  lemma HighvolConfidenceMeaning(settings: Settings, vol: real)
    requires settings.highVolatilityPct > 0.0 && vol >= settings.highVolatilityPct
    ensures var c, threshold := HighvolConfidence(settings, vol), settings.highVolatilityPct;
            && 50 <= c <= 100
            && (vol >= 2.0 * threshold ==> c == 100)
            && (vol <= 2.0 * threshold ==> -0.5 <= c as real - 50.0 * (vol / threshold) <= 0.5)
  {
    hide RoundHalfEven;
    var threshold, ratio := settings.highVolatilityPct, vol / settings.highVolatilityPct;
    assert ratio >= 1.0 by {
      assert 1.0 * threshold == threshold;
      QuotientAtLeast(vol, threshold, 1.0);
    }
    if vol >= 2.0 * threshold {
      QuotientAtLeast(vol, threshold, 2.0);
      assert HighvolConfidence(settings, vol) == RoundHalfEven(100.0);
      WholeHundred();
    }
    if vol <= 2.0 * threshold {
      QuotientAtMost(vol, threshold, 2.0);
      assert HighvolConfidence(settings, vol) == RoundHalfEven(ratio * 50.0);
      WholeFifty(ratio);
    }
  }

  /** Without a demand for more than 50 points, volatility is decided high exactly from the threshold on. */
  lemma HighvolMeaning(settings: Settings, h: seq<Candle>)
    requires settings.Usable() && h != [] && settings.highVolatilityPct > 0.0 && settings.signalMinConfidence <= 50
    ensures var vol, d := RealizedVolOf(settings, Closes(h)), HighvolAt(settings, h);
            && (d == Some(High) <==> vol.Some? && vol.value >= settings.highVolatilityPct)
            && (d == Some(Normal) <==> vol.Some? && vol.value < settings.highVolatilityPct)
  {
    hide EmaOf, RsiOf, RealizedVolOf, RelativeVolumeOf, Wilder, HighvolConfidence;
    var vol := RealizedVolOf(settings, Closes(h));
    if vol.Some? && vol.value >= settings.highVolatilityPct {
      HighvolConfidenceMeaning(settings, vol.value);
    }
  }

  // ---- the fields of a signal ---------------------------------------------------------------------------

  /** What kind, score, states and confidence of a signal have to do with each other. */
  predicate WellFormedSignal(settings: Settings, s: SignalResult) {
    && settings.signalMinConfidence <= s.confidence <= 100
    && s.stateFrom != s.stateTo
    && match s.kind
       case BuySignal => s.score > 0.0 && s.stateTo == PressureState(Buy) && s.stateFrom.PressureState?
       case SellSignal => s.score < 0.0 && s.stateTo == PressureState(Sell) && s.stateFrom.PressureState?
       case HighvolSignal =>
         && s.score >= settings.highVolatilityPct
         && s.stateTo == VolatilityState(High) && s.stateFrom == VolatilityState(Normal)
  }

  lemma PressureSignalWellFormed(settings: Settings, earlier: seq<Option<Pressure>>, s: Snapshot)
    requires s.emaFast.Some? && s.emaSlow.Some? && s.emaSlow.value > 0.0
    ensures var r := PressureSignal(settings, earlier, s, ComputeTrend(s));
            r.Some? ==> && WellFormedSignal(settings, r.value)
                        && r.value.kind != HighvolSignal
                        && r.value.stateFrom == PressureState(LastDecisive(earlier, Neutral))
  {
    hide RawConfidence, ComputeTrend;
    TrendDirection(s);
  }

  lemma AtMostHundred(x: real)
    ensures RoundHalfEven(Min(x, 100.0)) <= 100
  {
  }

  lemma HighvolAtMostHundred(settings: Settings, vol: real)
    requires settings.highVolatilityPct != 0.0
    ensures HighvolConfidence(settings, vol) <= 100
  {
    AtMostHundred(vol / settings.highVolatilityPct * 50.0);
  }

  lemma HighvolSignalWellFormed(settings: Settings, earlier: seq<Option<Volatility>>, s: Snapshot)
    requires settings.highVolatilityPct != 0.0
    ensures var r := HighvolSignal'(settings, earlier, s);
            r.Some? ==> && WellFormedSignal(settings, r.value) && r.value.kind == HighvolSignal
                        && s.volRealized == Some(r.value.score)
  {
    hide HighvolConfidence;
    var state := LastDecisive(earlier, Normal);
    assert state.Normal? || state.High?;
    if s.volRealized.Some? {
      HighvolAtMostHundred(settings, s.volRealized.value);
    }
  }

  /**
   Every emitted signal moves to the state its kind names, from the last decisive one,
   with enough confidence and a score whose sign agrees; a highvol signal carries the reading.
   */
  lemma SignalsWellFormed(settings: Settings, h: seq<Candle>, i: nat)
    requires settings.Usable() && h != [] && EmaOf(settings.emaSlowPeriod, Closes(h)) > 0.0
    requires i < |SignalsOf(settings, h)|
    ensures var s := SignalsOf(settings, h)[i];
            && WellFormedSignal(settings, s)
            && (s.kind != HighvolSignal ==>
                  s.stateFrom == PressureState(LastDecisive(PressureRun(settings, h[..|h| - 1]), Neutral)))
            && (s.kind == HighvolSignal ==> RealizedVolOf(settings, Closes(h)) == Some(s.score))
  {
    hide EmaOf, RsiOf, RealizedVolOf, RelativeVolumeOf, Wilder, ComputeTrend;
    hide PressureSignal, HighvolSignal', WellFormedSignal, PressureRun, HighvolRun;
    var prior, s := h[..|h| - 1], SnapshotOf(settings, h);
    PressureSignalWellFormed(settings, PressureRun(settings, prior), s);
    HighvolSignalWellFormed(settings, HighvolRun(settings, prior), s);
  }
}
