/**
 What the composition of averages, RSI, trend and confidence gate can and cannot emit
 over whole runs of candles.
 */
module MarketTheorems {
  import opened Numbers
  import opened Collections
  import opened Latch
  import opened Market
  import opened Indicators
  import opened Trend
  import opened Signals
  import opened Engine

  predicate Emits(settings: Settings, h: seq<Candle>, kind: Kind)
    requires settings.Usable() && h != []
  {
    exists i :: 0 <= i < |SignalsOf(settings, h)| && SignalsOf(settings, h)[i].kind == kind
  }

  /** No candle of the run emits a buy or a sell. */
  ghost predicate PressureSilent(settings: Settings, h: seq<Candle>)
    requires settings.Usable()
  {
    forall n :: 0 < n <= |h| ==> !Emits(settings, h[..n], BuySignal) && !Emits(settings, h[..n], SellSignal)
  }

  // ---- signals over a whole run ---------------------------------------------------

  /**
   A candle emits a buy (sell) exactly when it is decisively a buy (sell) and the last
   decisive candle before it was not: low-confidence candles never consume a transition.
   */
  lemma PressureEmission(settings: Settings, h: seq<Candle>)
    requires settings.Usable() && settings.enableSignals && h != []
    ensures var run, n := PressureRun(settings, h), |h| - 1;
            && (Emits(settings, h, BuySignal) <==> Fires(run, Neutral, n) && run[n] == Some(Buy))
            && (Emits(settings, h, SellSignal) <==> Fires(run, Neutral, n) && run[n] == Some(Sell))
  {
    hide SnapshotOf, PressureDecision, PressureConfidence, HighvolConfidence;
    var n := |h| - 1;
    RunPrefixes(settings, h, n);
    assert h[..n + 1] == h;
    var out := SignalsOf(settings, h);
    var p := PressureSignal(settings, PressureRun(settings, h[..n]), SnapshotOf(settings, h), TrendOf(settings, h));
    if p.Some? {
      assert out[0] == p.value;
    }
  }

  lemma HighvolEmission(settings: Settings, h: seq<Candle>)
    requires settings.Usable() && settings.enableSignals && h != []
    ensures Emits(settings, h, HighvolSignal) <==> Fires(HighvolRun(settings, h), Normal, |h| - 1)
  {
    hide SnapshotOf, PressureDecision, PressureConfidence, HighvolConfidence;
    var n := |h| - 1;
    RunPrefixes(settings, h, n);
    assert h[..n + 1] == h;
    var out := SignalsOf(settings, h);
    var v := HighvolSignal'(settings, HighvolRun(settings, h[..n]), SnapshotOf(settings, h));
    if v.Some? {
      assert out[|out| - 1] == v.value;
    }
  }

  predicate EmitsAt(settings: Settings, h: seq<Candle>, k: nat, kind: Kind)
    requires settings.Usable() && k < |h|
  {
    Emits(settings, h[..k + 1], kind)
  }

  predicate PressureEmitted(settings: Settings, h: seq<Candle>, k: nat)
    requires settings.Usable() && k < |h|
  {
    EmitsAt(settings, h, k, BuySignal) || EmitsAt(settings, h, k, SellSignal)
  }

  lemma PressureEmissionAt(settings: Settings, h: seq<Candle>, k: nat)
    requires settings.Usable() && settings.enableSignals && k < |h|
    ensures PressureEmitted(settings, h, k) <==> Fires(PressureRun(settings, h), Neutral, k)
    ensures EmitsAt(settings, h, k, BuySignal) ==> PressureRun(settings, h)[k] == Some(Buy)
    ensures EmitsAt(settings, h, k, SellSignal) ==> PressureRun(settings, h)[k] == Some(Sell)
  {
    hide SnapshotOf, PressureAt, SignalsOf, Emits;
    var run := PressureRun(settings, h);
    PressureEmission(settings, h[..k + 1]);
    RunPrefixes(settings, h, k + 1);
    assert run[..k + 1][..k] == run[..k] && run[..k + 1][k] == run[k];
    assert run[k].Some? ==> run[k].value.Neutral? || run[k].value.Buy? || run[k].value.Sell?;
  }

  lemma NoSignalsWhenDisabled(settings: Settings, h: seq<Candle>)
    requires settings.Usable() && !settings.enableSignals && h != []
    ensures forall kind :: !Emits(settings, h, kind)
  {
  }

  /** Between two successive buys (or two successive sells) lies a neutral candle. */
  lemma NeutralBetweenSameSignals(settings: Settings, h: seq<Candle>, i: nat, j: nat, kind: Kind)
    requires settings.Usable() && i < j < |h| && kind != HighvolSignal
    requires EmitsAt(settings, h, i, kind) && EmitsAt(settings, h, j, kind)
    requires forall k :: i < k < j ==> !PressureEmitted(settings, h, k)
    ensures exists k :: i < k < j && PressureRun(settings, h)[k] == Some(Neutral)
  {
    hide SnapshotOf, PressureRun, Emits;
    if !settings.enableSignals {
      NoSignalsWhenDisabled(settings, h[..i + 1]);
    }
    forall k | i <= k <= j
      ensures PressureEmitted(settings, h, k) <==> Fires(PressureRun(settings, h), Neutral, k)
    {
      PressureEmissionAt(settings, h, k);
    }
    PressureEmissionAt(settings, h, i);
    PressureEmissionAt(settings, h, j);
    SuccessiveFiringsSeparated(PressureRun(settings, h), Neutral, i, j);
  }

  /** A run none of whose candles is decisively a buy or a sell emits neither. */
  lemma SilentWhenUndecided(settings: Settings, h: seq<Candle>)
    requires settings.Usable()
    requires forall n :: 0 < n <= |h| ==> PressureAt(settings, h[..n]) in {None, Some(Neutral)}
    ensures PressureSilent(settings, h)
  {
    hide SnapshotOf, PressureAt, Emits;
    forall n | 0 < n <= |h|
      ensures !Emits(settings, h[..n], BuySignal) && !Emits(settings, h[..n], SellSignal)
    {
      if settings.enableSignals {
        PressureEmission(settings, h[..n]);
        assert h[..n][..n] == h[..n];
        assert PressureRun(settings, h[..n])[n - 1] == PressureAt(settings, h[..n]);
      } else {
        NoSignalsWhenDisabled(settings, h[..n]);
      }
    }
  }

  // ---- monotone markets ---------------------------------------------------------------

  lemma RsiWarmingUp(period: nat, closes: seq<real>)
    requires period > 0 && |closes| <= period
    ensures RsiOf(period, closes).None?
  {
  }

  lemma RisingCandleUndecided(settings: Settings, h: seq<Candle>)
    requires settings.Usable() && settings.emaFastPeriod <= settings.emaSlowPeriod && h != []
    requires NeverFalls(Closes(h))
    ensures PressureAt(settings, h) in {None, Some(Neutral)}
  {
    hide EmaOf, RsiOf, RealizedVolOf, RelativeVolumeOf, Wilder, DiffPct, PressureConfidence;
    var closes := Closes(h);
    var fast, slow := EmaOf(settings.emaFastPeriod, closes), EmaOf(settings.emaSlowPeriod, closes);
    MonotonePricesOrderEmas(settings.emaFastPeriod, settings.emaSlowPeriod, closes);
    if slow != 0.0 {
      DiffSign(fast, slow);
    }
    if |closes| > settings.rsiPeriod {
      RisingRsi(settings.rsiPeriod, closes);
    } else {
      RsiWarmingUp(settings.rsiPeriod, closes);
    }
  }

  lemma FallingCandleUndecided(settings: Settings, h: seq<Candle>)
    requires settings.Usable() && settings.emaFastPeriod <= settings.emaSlowPeriod && h != []
    requires settings.rsiPeriod >= 2 && NeverRises(Closes(h))
    ensures PressureAt(settings, h) in {None, Some(Neutral)}
  {
    hide EmaOf, RsiOf, RealizedVolOf, RelativeVolumeOf, Wilder, DiffPct, PressureConfidence;
    var closes := Closes(h);
    var fast, slow := EmaOf(settings.emaFastPeriod, closes), EmaOf(settings.emaSlowPeriod, closes);
    MonotonePricesOrderEmas(settings.emaFastPeriod, settings.emaSlowPeriod, closes);
    if slow != 0.0 {
      DiffSign(fast, slow);
    }
    if |closes| > settings.rsiPeriod {
      FallingRsi(settings.rsiPeriod, closes);
      if Constant(closes) {
        EmaInHull(settings.emaFastPeriod, closes, closes[0], closes[0]);
        EmaInHull(settings.emaSlowPeriod, closes, closes[0], closes[0]);
        assert fast == slow;
      }
    } else {
      RsiWarmingUp(settings.rsiPeriod, closes);
    }
  }

  /**
   The monotone-market theorem: a run whose closes never fall, or (with an RSI period
   of at least 2) never rise, emits no buy and no sell at any candle.
   */
  lemma MonotoneMarketIsSilent(settings: Settings, h: seq<Candle>)
    requires settings.Usable() && settings.emaFastPeriod <= settings.emaSlowPeriod
    requires NeverFalls(Closes(h)) || (settings.rsiPeriod >= 2 && NeverRises(Closes(h)))
    ensures PressureSilent(settings, h)
  {
    hide PressureAt, PressureSilent;
    forall n | 0 < n <= |h|
      ensures PressureAt(settings, h[..n]) in {None, Some(Neutral)}
    {
      assert Closes(h[..n]) == Closes(h)[..n];
      if NeverFalls(Closes(h)) {
        RisingCandleUndecided(settings, h[..n]);
      } else {
        FallingCandleUndecided(settings, h[..n]);
      }
    }
    SilentWhenUndecided(settings, h);
  }

  // ---- the price band ------------------------------------------------------------------

  /**
   A candle whose closes so far lie in [lo, hi], a band narrower than (m - 40.5) / 12
   percent of lo, cannot reach confidence m in either direction.
   */
  lemma BandCandleUndecided(settings: Settings, h: seq<Candle>, lo: real, hi: real)
    requires settings.Usable() && h != [] && 0.0 < lo
    requires forall i :: 0 <= i < |h| ==> lo <= h[i].close <= hi
    requires (hi - lo) / lo * 100.0 < (settings.signalMinConfidence as real - 40.5) / 12.0
    ensures PressureAt(settings, h) in {None, Some(Neutral)}
  {
    hide EmaOf, RsiOf, RealizedVolOf, RelativeVolumeOf, Wilder, DiffPct, PressureConfidence;
    var closes := Closes(h);
    var fast, slow := EmaOf(settings.emaFastPeriod, closes), EmaOf(settings.emaSlowPeriod, closes);
    EmaInHull(settings.emaFastPeriod, closes, lo, hi);
    EmaInHull(settings.emaSlowPeriod, closes, lo, hi);
    DiffInBand(fast, slow, lo, hi);
    var s, trend := SnapshotOf(settings, h), TrendOf(settings, h);
    assert 0.0 <= trend.value.strength <= (hi - lo) / lo * 100.0 * 20.0;
    if s.rsi.Some? && s.volRel.Some? {
      if PressureConfidence(trend.value, s) >= settings.signalMinConfidence {
        ConfidenceNeedsStrength(trend.value, s, settings.signalMinConfidence);
      }
    }
  }

  /**
   The price-band theorem. With the default confidence of 60 the bound is 1.625
   percent: such a market emits no buy and no sell at all.
   */
  lemma NarrowBandIsSilent(settings: Settings, h: seq<Candle>, lo: real, hi: real)
    requires settings.Usable() && 0.0 < lo
    requires forall i :: 0 <= i < |h| ==> lo <= h[i].close <= hi
    requires (hi - lo) / lo * 100.0 < (settings.signalMinConfidence as real - 40.5) / 12.0
    ensures PressureSilent(settings, h)
  {
    hide PressureAt, PressureSilent;
    forall n | 0 < n <= |h|
      ensures PressureAt(settings, h[..n]) in {None, Some(Neutral)}
    {
      BandCandleUndecided(settings, h[..n], lo, hi);
    }
    SilentWhenUndecided(settings, h);
  }

  // ---- why the falling half needs an RSI period of at least 2 -----------------------------

  function CandleAt(close: real): Candle {
    Candle("X", 0, close, close, close, close, 1.0, 1.0, 1, true, 0.0)
  }

  lemma DropThenFlatAverages()
    ensures Smooth(Alpha(1), [100.0, 50.0, 50.0]) == 50.0
    ensures Smooth(Alpha(3), [100.0, 50.0, 50.0]) == 62.5
    ensures RelativeVolumeOf(1, [1.0, 1.0, 1.0]) == Some(1.0)
  {
    assert [100.0, 50.0, 50.0][..2] == [100.0, 50.0] && [100.0, 50.0][..1] == [100.0];
    assert LastN([1.0, 1.0], 1) == [1.0] && [1.0, 1.0, 1.0][..2] == [1.0, 1.0];
    assert Sum([1.0]) == 1.0;
  }

  lemma DropThenFlatRsi()
    ensures RsiOf(1, [100.0]).None?
    ensures RsiOf(1, [100.0, 50.0]) == Some(0.0)
    ensures RsiOf(1, [100.0, 50.0, 50.0]) == Some(100.0)
  {
    assert Gains([100.0, 50.0]) == [0.0] && Losses([100.0, 50.0]) == [50.0];
    assert Gains([100.0, 50.0, 50.0]) == [0.0, 0.0] && Losses([100.0, 50.0, 50.0]) == [50.0, 0.0];
    assert Sum([0.0]) == 0.0 && Sum([50.0]) == 50.0;
    assert [50.0, 0.0][..1] == [50.0] && [0.0, 0.0][..1] == [0.0];
  }

  /**
   With an RSI period of 1 a drop followed by an unchanged close forgets the drop: the
   RSI jumps to 100 while the averages still point down, and a sell is emitted.
   */
  lemma RsiPeriodOneSells(settings: Settings)
    requires settings.Usable() && settings.enableSignals && settings.signalMinConfidence <= 80
    requires settings.emaFastPeriod == 1 && settings.emaSlowPeriod == 3
    requires settings.rsiPeriod == 1 && settings.relativeVolumeWindow == 1
    ensures var h := [CandleAt(100.0), CandleAt(50.0), CandleAt(50.0)];
            NeverRises(Closes(h)) && Emits(settings, h, SellSignal)
  {
    hide RealizedVolOf, RelativeVolumeOf, Wilder, Smooth, RsiOf;
    DropThenFlatAverages();
    DropThenFlatRsi();
    var h := [CandleAt(100.0), CandleAt(50.0), CandleAt(50.0)];
    assert Closes(h) == [100.0, 50.0, 50.0] && Volumes(h) == [1.0, 1.0, 1.0];
    assert Closes(h[..2]) == [100.0, 50.0] && Closes(h[..1]) == [100.0];
    var s, trend := SnapshotOf(settings, h), TrendOf(settings, h);
    assert DiffPct(50.0, 62.5) == -20.0;
    assert PressureConfidence(trend.value, s) == 80;
    assert PressureAt(settings, h[..1]).None?;
    assert PressureAt(settings, h[..2]) != Some(Sell);
    var run := PressureRun(settings, h);
    assert h[..3] == h;
    LastDecisiveAppend(run[..1], run[1], Neutral);
    assert run[..2] == run[..1] + [run[1]] && run[..1] == [] + [run[0]];
    LastDecisiveAppend([], run[0], Neutral);
    PressureEmission(settings, h);
  }
}
