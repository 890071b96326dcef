/**
 What an event reports: the price, how far it has gone beyond what it is compared with,
 and a severity that follows from that alone.
 */
module EventTheorems {
  import opened Numbers
  import opened Collections
  import opened Market
  import opened Indicators
  import opened Events
  import opened EventEdges
  import opened Engine
  import opened CandleEvents

  /** Severity 2 from one and a half times the unit on, severity 3 from three times the unit on. */
  predicate Graded(severity: int, amount: real, unit: real) {
    && 1 <= severity <= 3
    && (severity >= 2 <==> amount >= 1.5 * unit)
    && (severity == 3 <==> amount >= 3.0 * unit)
  }

  lemma ReachedIff(q: real, bound: real, unit: real)
    requires unit > 0.0
    ensures q >= bound <==> q * unit >= bound * unit
  {
    if q >= bound {
      MulMonotone(bound, q, unit);
    } else {
      PositiveProduct(bound - q, unit);
      assert (bound - q) * unit == bound * unit - q * unit;
    }
  }

  lemma SeverityGrades(amount: real, unit: real)
    requires unit > 0.0
    ensures Graded(Severity(amount / unit), amount, unit)
  {
    var q := amount / unit;
    DivMonotone(amount, amount, unit);
    ReachedIff(q, 1.5, unit);
    ReachedIff(q, 3.0, unit);
  }

  // ---- breakouts ---------------------------------------------------------------------

  lemma DistanceMeaning(distance: real, level: real)
    requires level > 0.0 && distance > 0.0
    ensures var magnitude := distance / level * 100.0;
            magnitude > 0.0 && magnitude * level == 100.0 * distance && Graded(Severity(Abs(magnitude)), magnitude, 1.0)
  {
    var q := distance / level;
    assert q * level == distance;
    assert q > 0.0;
    assert (q * 100.0) * level == 100.0 * (q * level);
    assert 1.5 * 1.0 == 1.5 && 3.0 * 1.0 == 3.0;
  }

  /** The magnitude is the percentage of the level by which the close lies beyond it. */
  predicate Exceeds(e: EventResult, level: real, distance: real) {
    if level > 0.0 then
      e.magnitude > 0.0 && e.magnitude * level == 100.0 * distance && Graded(e.severity, e.magnitude, 1.0)
    else
      e.magnitude == 0.0 && e.severity == 1
  }

  lemma NoSeverity()
    ensures Severity(Abs(0.0)) == 1
  {
  }

  lemma BreakResultMeaning(highs: seq<real>, lows: seq<real>, above: bool, close: real)
    requires highs != [] && lows != []
    requires if above then close > MaxOf(highs) else close < MinOf(lows)
    ensures var e := BreakResult(highs, lows, above, close);
            && e.kind == (if above then Breakout else Breakdown) && e.price == close
            && (above ==> Exceeds(e, MaxOf(highs), close - MaxOf(highs)))
            && (!above ==> Exceeds(e, MinOf(lows), MinOf(lows) - close))
  {
    hide Severity, Graded;
    var level := if above then MaxOf(highs) else MinOf(lows);
    if level > 0.0 {
      DistanceMeaning(if above then close - level else level - close, level);
    } else {
      NoSeverity();
    }
  }

  /** The event of a candle is what the check of its kind returned. */
  lemma EventIsCheck(settings: Settings, prior: seq<Snapshot>, s: Snapshot, k: nat)
    requires settings.Usable() && k < |EventsOf(settings, prior, s)|
    ensures var e := EventsOf(settings, prior, s)[k]; CheckOf(settings, prior, s, e.kind) == Some(e)
  {
    hide BreakDecision, MoveDecision, SpikeDecision, BreakRun, MoveRun, SpikeRun, Settings.Usable, Severity;
    var b, m, v := BreakEvent(settings, prior, s), MoveEvent(settings, prior, s), SpikeEvent(settings, prior, s);
    assert b.Some? ==> b.value.kind in {Breakout, Breakdown};
    assert m.Some? ==> m.value.kind in {PumpEvent, DumpEvent};
    assert v.Some? ==> v.value.kind == VolSpike;
  }

  /** Snapshot `j` has the highest high of the last `w`. */
  predicate Highest(prior: seq<Snapshot>, w: nat, j: int)
    requires w <= |prior|
  {
    && |prior| - w <= j < |prior|
    && forall k :: |prior| - w <= k < |prior| ==> prior[k].high <= prior[j].high
  }

  predicate Lowest(prior: seq<Snapshot>, w: nat, j: int)
    requires w <= |prior|
  {
    && |prior| - w <= j < |prior|
    && forall k :: |prior| - w <= k < |prior| ==> prior[k].low >= prior[j].low
  }

  lemma HighestOf(prior: seq<Snapshot>, w: nat) returns (j: nat)
    requires 0 < w <= |prior|
    ensures LastN(Highs(prior), w) != [] && Highest(prior, w, j) && prior[j].high == MaxOf(LastN(Highs(prior), w))
  {
    var highs, first := LastN(Highs(prior), w), |prior| - w;
    var i :| 0 <= i < w && highs[i] == MaxOf(highs);
    j := first + i;
    assert highs[i] == prior[j].high;
    forall k | first <= k < |prior|
      ensures prior[k].high <= prior[j].high
    {
      assert highs[k - first] == prior[k].high;
      BeyondExtremes(highs, prior[k].high);
    }
  }

  lemma LowestOf(prior: seq<Snapshot>, w: nat) returns (j: nat)
    requires 0 < w <= |prior|
    ensures LastN(Lows(prior), w) != [] && Lowest(prior, w, j) && prior[j].low == MinOf(LastN(Lows(prior), w))
  {
    var lows, first := LastN(Lows(prior), w), |prior| - w;
    var i :| 0 <= i < w && lows[i] == MinOf(lows);
    j := first + i;
    assert lows[i] == prior[j].low;
    forall k | first <= k < |prior|
      ensures prior[k].low >= prior[j].low
    {
      assert lows[k - first] == prior[k].low;
      BeyondExtremes(lows, prior[k].low);
    }
  }

  lemma BreakIsResult(settings: Settings, prior: seq<Snapshot>, s: Snapshot)
    requires settings.Usable() && BreakEvent(settings, prior, s).Some?
    ensures var w, e := settings.breakoutWindow, BreakEvent(settings, prior, s).value;
            var highs, lows := LastN(Highs(prior), w), LastN(Lows(prior), w);
            && |prior| >= w && highs != [] && lows != []
            && ((e == BreakResult(highs, lows, true, s.close) && s.close > MaxOf(highs))
                || (e == BreakResult(highs, lows, false, s.close) && s.close < MinOf(lows)))
  {
    hide BreakRun, BreakResult, MaxOf, MinOf;
    WindowLengths(prior, settings.breakoutWindow);
  }

  /** A breakout (breakdown) tells how far the close is beyond the highest high (lowest low) of the window. */
  lemma BreakMagnitude(settings: Settings, prior: seq<Snapshot>, s: Snapshot)
    requires settings.Usable() && BreakEvent(settings, prior, s).Some?
    ensures var w, e := settings.breakoutWindow, BreakEvent(settings, prior, s).value;
            && |prior| >= w && e.price == s.close && e.kind in {Breakout, Breakdown}
            && (e.kind == Breakout ==>
                  exists j :: 0 <= j < |prior| && Highest(prior, w, j) && s.close > prior[j].high
                              && Exceeds(e, prior[j].high, s.close - prior[j].high))
            && (e.kind == Breakdown ==>
                  exists j :: 0 <= j < |prior| && Lowest(prior, w, j) && s.close < prior[j].low
                              && Exceeds(e, prior[j].low, prior[j].low - s.close))
  {
    hide BreakEvent, BreakResult, Exceeds, Highest, Lowest, LastN, Highs, Lows;
    var w := settings.breakoutWindow;
    BreakIsResult(settings, prior, s);
    var highs, lows := LastN(Highs(prior), w), LastN(Lows(prior), w);
    var i := HighestOf(prior, w);
    var j := LowestOf(prior, w);
    if s.close > MaxOf(highs) {
      BreakResultMeaning(highs, lows, true, s.close);
    }
    if s.close < MinOf(lows) {
      BreakResultMeaning(highs, lows, false, s.close);
    }
  }

  // ---- moves -------------------------------------------------------------------------------

  /** The magnitude is the percentage by which the close has moved from the reference. */
  predicate MovedFrom(settings: Settings, e: EventResult, ref: real, close: real) {
    && ref > 0.0 && e.price == close && e.magnitude * ref == 100.0 * (close - ref)
    && (e.kind == PumpEvent ==>
          && ClimbedBy(ref, close, settings.pumpDumpPct)
          && (settings.pumpDumpPct > 0.0 ==> Graded(e.severity, e.magnitude, settings.pumpDumpPct)))
    && (e.kind == DumpEvent ==>
          && FellBy(ref, close, settings.pumpDumpPct)
          && (settings.pumpDumpPct > 0.0 ==> Graded(e.severity, -e.magnitude, settings.pumpDumpPct)))
  }

  lemma MoveResultMeaning(settings: Settings, ref: real, pump: bool, close: real)
    requires ref > 0.0 && settings.pumpDumpPct != 0.0
    requires if pump then PctFrom(ref, close) >= settings.pumpDumpPct else PctFrom(ref, close) <= -settings.pumpDumpPct
    ensures var e := MoveResult(ref, settings.pumpDumpPct, pump, close);
            e.kind == (if pump then PumpEvent else DumpEvent) && e.price == close && MovedFrom(settings, e, ref, close)
  {
    hide PctFrom, Severity, Graded, ClimbedBy, FellBy;
    var pct := PctFrom(ref, close);
    PctMeaning(ref, close, settings.pumpDumpPct);
    if settings.pumpDumpPct > 0.0 {
      SeverityGrades(if pump then pct else Abs(pct), settings.pumpDumpPct);
    }
  }

  lemma MoveMagnitude(settings: Settings, prior: seq<Snapshot>, s: Snapshot)
    requires settings.Usable() && MoveEvent(settings, prior, s).Some?
    ensures var w, e := settings.pumpDumpWindow, MoveEvent(settings, prior, s).value;
            && |prior| >= w && e.kind in {PumpEvent, DumpEvent} && e.price == s.close
            && MovedFrom(settings, e, prior[|prior| - w].close, s.close)
  {
    hide MoveRun, MoveResult, PctFrom, MovedFrom;
    var w := settings.pumpDumpWindow;
    var closes := LastN(PriorCloses(prior), w);
    assert |prior| >= w ==> closes[0] == prior[|prior| - w].close;
    MoveResultMeaning(settings, closes[0], MoveDecision(settings, prior, s).value == Pump, s.close);
  }

  // ---- volatility spikes --------------------------------------------------------------------

  lemma SpikeResultMeaning(readings: seq<real>, multiplier: real, vol: real, close: real)
    requires readings != [] && Mean(readings, |readings|) > 0.0 && multiplier != 0.0
    ensures var e := SpikeResult(readings, multiplier, vol, close);
            && e.kind == VolSpike && e.price == close && e.magnitude == vol
            && (multiplier > 0.0 ==> Graded(e.severity, vol, Mean(readings, |readings|) * multiplier))
  {
    hide Mean, Severity, Graded;
    if multiplier > 0.0 {
      PositiveProduct(Mean(readings, |readings|), multiplier);
      SeverityGrades(vol, Mean(readings, |readings|) * multiplier);
    }
  }

  lemma SpikeMagnitude(settings: Settings, prior: seq<Snapshot>, s: Snapshot)
    requires settings.Usable() && SpikeEvent(settings, prior, s).Some?
    ensures var w, rs, e := settings.volSpikeWindow, Readings(prior), SpikeEvent(settings, prior, s).value;
            && e.kind == VolSpike && e.price == s.close && s.volRealized == Some(e.magnitude)
            && |rs| >= w && Baseline(w, rs, |rs|) > 0.0
            && (settings.volSpikeMultiplier > 0.0 ==>
                  Graded(e.severity, e.magnitude, Baseline(w, rs, |rs|) * settings.volSpikeMultiplier))
  {
    hide SpikeRun, Mean, SpikeResult, Graded, Readings;
    var w, rs := settings.volSpikeWindow, Readings(prior);
    var window := LastN(rs, w);
    assert |rs| >= w && window == rs[|rs| - w..|rs|];
    assert Mean(window, |window|) == Baseline(w, rs, |rs|);
    SpikeResultMeaning(window, settings.volSpikeMultiplier, s.volRealized.value, s.close);
  }

  // ---- over runs of candles --------------------------------------------------------------------

  /** The close lies beyond the highest high (lowest low) of the window by the magnitude. */
  predicate TellsBreak(settings: Settings, h: seq<Candle>, e: EventResult)
    requires h != []
  {
    var n, w := |h| - 1, settings.breakoutWindow;
    var close := h[n].close;
    && n >= w
    && (e.kind == Breakout ==>
          exists j :: n - w <= j < n && close > h[j].high && Exceeds(e, h[j].high, close - h[j].high)
                      && forall i :: n - w <= i < n ==> h[i].high <= h[j].high)
    && (e.kind == Breakdown ==>
          exists j :: n - w <= j < n && close < h[j].low && Exceeds(e, h[j].low, h[j].low - close)
                      && forall i :: n - w <= i < n ==> h[i].low >= h[j].low)
  }

  predicate TellsMove(settings: Settings, h: seq<Candle>, e: EventResult)
    requires h != []
  {
    var n, w := |h| - 1, settings.pumpDumpWindow;
    n >= w && MovedFrom(settings, e, h[n - w].close, h[n].close)
  }

  /** The magnitude is the candle's reading, and is graded against the mean of the readings before it. */
  predicate TellsSpike(settings: Settings, h: seq<Candle>, e: EventResult)
    requires settings.Usable() && h != []
  {
    var w, rs := settings.volSpikeWindow, VolReadings(settings, h[..|h| - 1]);
    && RealizedVolOf(settings, Closes(h)) == Some(e.magnitude)
    && |rs| >= w && Baseline(w, rs, |rs|) > 0.0
    && (settings.volSpikeMultiplier > 0.0 ==>
          Graded(e.severity, e.magnitude, Baseline(w, rs, |rs|) * settings.volSpikeMultiplier))
  }

  /** What an event of each kind says about the candles. */
  predicate Tells(settings: Settings, h: seq<Candle>, e: EventResult)
    requires settings.Usable() && h != []
  {
    && e.price == h[|h| - 1].close
    && (e.kind in {Breakout, Breakdown} ==> TellsBreak(settings, h, e))
    && (e.kind in {PumpEvent, DumpEvent} ==> TellsMove(settings, h, e))
    && (e.kind == VolSpike ==> TellsSpike(settings, h, e))
  }

  lemma LastSnapshot(settings: Settings, h: seq<Candle>)
    requires settings.Usable() && h != []
    ensures SnapshotRun(settings, h)[|h| - 1] == SnapshotOf(settings, h)
  {
    hide SnapshotOf;
    assert h[..|h| - 1 + 1] == h;
  }

  /** The snapshots an event is checked on show the candles. */
  lemma SnapshotsShow(settings: Settings, h: seq<Candle>)
    requires settings.Usable() && h != []
    ensures var n, prior, s := |h| - 1, SnapshotRun(settings, h[..|h| - 1]), SnapshotOf(settings, h);
            && |prior| == n && s.close == h[n].close && s.volRealized == RealizedVolOf(settings, Closes(h))
            && forall i :: 0 <= i < n ==>
                 prior[i].close == h[i].close && prior[i].high == h[i].high && prior[i].low == h[i].low
  {
    hide SnapshotRun, SnapshotOf, RealizedVolOf;
    var n := |h| - 1;
    SnapshotFields(settings, h);
    RunPrefixes(settings, h, n);
    LastSnapshot(settings, h);
    assert h[..n + 1] == h;
    assert forall i :: 0 <= i < n ==> SnapshotRun(settings, h[..n])[i] == SnapshotRun(settings, h)[i];
  }

  lemma BreakTells(settings: Settings, h: seq<Candle>, e: EventResult)
    requires settings.Usable() && h != []
    requires BreakEvent(settings, SnapshotRun(settings, h[..|h| - 1]), SnapshotOf(settings, h)) == Some(e)
    ensures e.price == h[|h| - 1].close && TellsBreak(settings, h, e)
  {
    hide SnapshotRun, SnapshotOf, BreakEvent, Exceeds, RealizedVolOf;
    SnapshotsShow(settings, h);
    BreakMagnitude(settings, SnapshotRun(settings, h[..|h| - 1]), SnapshotOf(settings, h));
  }

  lemma MoveTells(settings: Settings, h: seq<Candle>, e: EventResult)
    requires settings.Usable() && h != []
    requires MoveEvent(settings, SnapshotRun(settings, h[..|h| - 1]), SnapshotOf(settings, h)) == Some(e)
    ensures e.price == h[|h| - 1].close && TellsMove(settings, h, e)
  {
    hide SnapshotRun, SnapshotOf, MoveEvent, MovedFrom, RealizedVolOf;
    SnapshotsShow(settings, h);
    MoveMagnitude(settings, SnapshotRun(settings, h[..|h| - 1]), SnapshotOf(settings, h));
  }

  lemma SpikeTells(settings: Settings, h: seq<Candle>, e: EventResult)
    requires settings.Usable() && h != []
    requires SpikeEvent(settings, SnapshotRun(settings, h[..|h| - 1]), SnapshotOf(settings, h)) == Some(e)
    ensures e.price == h[|h| - 1].close && TellsSpike(settings, h, e)
  {
    hide SnapshotRun, SnapshotOf, SpikeEvent, Graded, Baseline, Readings, RealizedVolOf;
    SnapshotsShow(settings, h);
    SpikeMagnitude(settings, SnapshotRun(settings, h[..|h| - 1]), SnapshotOf(settings, h));
  }

  /**
   Every event a candle emits reports its close; breakouts and breakdowns the distance
   to the extreme of the window, pumps and dumps the move since the window began,
   volatility spikes the reading; and a severity graded by the threshold it crossed.
   */
  lemma EventsTell(settings: Settings, h: seq<Candle>, k: nat)
    requires settings.Usable() && h != [] && k < |EventsAt(settings, h)|
    ensures Tells(settings, h, EventsAt(settings, h)[k])
  {
    hide SnapshotRun, SnapshotOf, EventsOf, BreakEvent, MoveEvent, SpikeEvent, TellsBreak, TellsMove, TellsSpike;
    var e := EventsAt(settings, h)[k];
    EventIsCheck(settings, SnapshotRun(settings, h[..|h| - 1]), SnapshotOf(settings, h), k);
    if e.kind in {Breakout, Breakdown} {
      BreakTells(settings, h, e);
    } else if e.kind in {PumpEvent, DumpEvent} {
      MoveTells(settings, h, e);
    } else {
      SpikeTells(settings, h, e);
    }
  }
}
