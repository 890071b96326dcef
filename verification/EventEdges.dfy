/**
 Events are exactly the rising edges of predicates over the full candle history:
 the predicates below are written with quantifiers and indices into the history,
 with no window, no state and no order of checks.
 */
module EventEdges {
  import opened Numbers
  import opened Collections
  import opened Latch
  import opened Market
  import opened Indicators
  import opened Events

  // ---- breakout and breakdown -------------------------------------------------

  /** Candle `i` closes above every high of the `w` candles before it. */
  predicate ClosesAbove(h: seq<Snapshot>, w: nat, i: nat)
    requires i < |h|
  {
    i >= w && forall j :: i - w <= j < i ==> h[j].high < h[i].close
  }

  predicate ClosesBelow(h: seq<Snapshot>, w: nat, i: nat)
    requires i < |h|
  {
    i >= w && !ClosesAbove(h, w, i) && forall j :: i - w <= j < i ==> h[j].low > h[i].close
  }

  lemma AboveWindow(h: seq<Snapshot>, w: nat, i: nat, highs: seq<real>)
    requires w <= i < |h| && |highs| == w
    requires forall k :: 0 <= k < w ==> highs[k] == h[i - w + k].high
    ensures ClosesAbove(h, w, i) <==> forall k :: 0 <= k < w ==> highs[k] < h[i].close
  {
    assert forall j :: i - w <= j < i ==> h[j].high == highs[j - (i - w)];
  }

  lemma BelowWindow(h: seq<Snapshot>, w: nat, i: nat, lows: seq<real>)
    requires w <= i < |h| && |lows| == w
    requires forall k :: 0 <= k < w ==> lows[k] == h[i - w + k].low
    ensures ClosesBelow(h, w, i)
       <==> !ClosesAbove(h, w, i) && forall k :: 0 <= k < w ==> lows[k] > h[i].close
  {
    hide ClosesAbove;
    assert forall j :: i - w <= j < i ==> h[j].low == lows[j - (i - w)];
  }

  /** The two windows candle `i` is compared with. */
  lemma WindowsBefore(h: seq<Snapshot>, w: nat, i: nat)
    requires i < |h|
    ensures var highs, lows := LastN(Highs(h[..i]), w), LastN(Lows(h[..i]), w);
            && |highs| == |lows| == (if i < w then i else w)
            && (i >= w ==> forall k :: 0 <= k < w ==> highs[k] == h[i - w + k].high && lows[k] == h[i - w + k].low)
  {
  }

  lemma ClassifyWindow(h: seq<Snapshot>, w: nat, i: nat, highs: seq<real>, lows: seq<real>)
    requires i < |h| && w > 0 && |highs| == |lows| == (if i < w then i else w)
    requires i >= w ==> forall k :: 0 <= k < w ==> highs[k] == h[i - w + k].high && lows[k] == h[i - w + k].low
    ensures ClassifyBreak(highs, lows, w, h[i].close)
         == if i < w then None
            else if ClosesAbove(h, w, i) then Some(Above)
            else if ClosesBelow(h, w, i) then Some(Below)
            else Some(NoBreak)
  {
    hide MaxOf, MinOf, ClosesAbove, ClosesBelow;
    if i >= w {
      BeyondExtremes(highs, h[i].close);
      BeyondExtremes(lows, h[i].close);
      AboveWindow(h, w, i, highs);
      BelowWindow(h, w, i, lows);
    }
  }

  lemma BreakMeaning(settings: Settings, h: seq<Snapshot>, i: nat)
    requires settings.Usable() && i < |h|
    ensures var w := settings.breakoutWindow;
            BreakRun(settings, h)[i]
              == if i < w then None
                 else if ClosesAbove(h, w, i) then Some(Above)
                 else if ClosesBelow(h, w, i) then Some(Below)
                 else Some(NoBreak)
  {
    hide ClassifyBreak, LastN, ClosesAbove, ClosesBelow;
    var w := settings.breakoutWindow;
    WindowsBefore(h, w, i);
    ClassifyWindow(h, w, i, LastN(Highs(h[..i]), w), LastN(Lows(h[..i]), w));
  }

  /**
   A breakout fires exactly when the close rises above the window now and did not at
   the previous candle; a breakdown likewise on the other side.
   */
  lemma BreakoutIsRisingEdge(settings: Settings, h: seq<Snapshot>, i: nat)
    requires settings.Usable() && i < |h|
    ensures var w, e := settings.breakoutWindow, BreakEvent(settings, h[..i], h[i]);
            && (e.Some? && e.value.kind == Breakout
                <==> ClosesAbove(h, w, i) && !(i > 0 && ClosesAbove(h, w, i - 1)))
            && (e.Some? && e.value.kind == Breakdown
                <==> ClosesBelow(h, w, i) && !(i > 0 && ClosesBelow(h, w, i - 1)))
  {
    hide BreakDecision;
    var run := BreakRun(settings, h);
    assert BreakRun(settings, h[..i]) == run[..i] by {
      assert forall j :: 0 <= j < i ==> h[..i][..j] == h[..j];
    }
    BreakMeaning(settings, h, i);
    if i > 0 {
      BreakMeaning(settings, h, i - 1);
    }
    if run[i].Some? {
      forall k | 0 <= k < i && run[i - 1].None?
        ensures run[k].None?
      {
        BreakMeaning(settings, h, k);
      }
      RisingEdge(run, NoBreak, i);
    }
  }

  // ---- pump and dump -----------------------------------------------------------

  /** Candle `i` stands at least `pct` percent above the close `w` candles before it. */
  predicate Pumps(settings: Settings, h: seq<Snapshot>, i: nat)
    requires i < |h|
  {
    var w := settings.pumpDumpWindow;
    i >= w && h[i - w].close > 0.0 && PctFrom(h[i - w].close, h[i].close) >= settings.pumpDumpPct
  }

  predicate Dumps(settings: Settings, h: seq<Snapshot>, i: nat)
    requires i < |h|
  {
    var w := settings.pumpDumpWindow;
    && i >= w && h[i - w].close > 0.0 && !Pumps(settings, h, i)
    && PctFrom(h[i - w].close, h[i].close) <= -settings.pumpDumpPct
  }

  lemma MoveMeaning(settings: Settings, h: seq<Snapshot>, i: nat)
    requires settings.Usable() && i < |h|
    ensures var w := settings.pumpDumpWindow;
            MoveRun(settings, h)[i]
              == if i < w || h[i - w].close <= 0.0 then None
                 else if Pumps(settings, h, i) then Some(Pump)
                 else if Dumps(settings, h, i) then Some(Dump)
                 else Some(NoMove)
  {
    hide PctFrom;
    var w := settings.pumpDumpWindow;
    var closes := LastN(PriorCloses(h[..i]), w);
    assert i >= w ==> closes[0] == h[i - w].close;
  }

  lemma PumpIsRisingEdge(settings: Settings, h: seq<Snapshot>, i: nat)
    requires settings.Usable() && i < |h|
    requires forall k :: 0 <= k < |h| ==> h[k].close > 0.0
    ensures var e := MoveEvent(settings, h[..i], h[i]);
            && (e.Some? && e.value.kind == PumpEvent
                <==> Pumps(settings, h, i) && !(i > 0 && Pumps(settings, h, i - 1)))
            && (e.Some? && e.value.kind == DumpEvent
                <==> Dumps(settings, h, i) && !(i > 0 && Dumps(settings, h, i - 1)))
  {
    hide MoveDecision, PctFrom;
    var run := MoveRun(settings, h);
    assert MoveRun(settings, h[..i]) == run[..i] by {
      assert forall j :: 0 <= j < i ==> h[..i][..j] == h[..j];
    }
    MoveMeaning(settings, h, i);
    if i > 0 {
      MoveMeaning(settings, h, i - 1);
    }
    if run[i].Some? {
      forall k | 0 <= k < i && run[i - 1].None?
        ensures run[k].None?
      {
        MoveMeaning(settings, h, k);
      }
      RisingEdge(run, NoMove, i);
    }
  }

  // ---- volatility spike ----------------------------------------------------------

  function Baseline(w: nat, rs: seq<real>, k: nat): real
    requires 0 < w <= k <= |rs|
  {
    Mean(rs[k - w..k], w)
  }

  /** Reading `k` is a spike over the mean of the `w` readings before it. */
  predicate SpikesAt(settings: Settings, rs: seq<real>, k: nat)
    requires settings.Usable() && k < |rs|
  {
    var w := settings.volSpikeWindow;
    k >= w && Baseline(w, rs, k) > 0.0 && rs[k] >= Baseline(w, rs, k) * settings.volSpikeMultiplier
  }

  function ReadingRun(settings: Settings, rs: seq<real>): (r: seq<Option<Spike>>)
    requires settings.Usable()
    ensures |r| == |rs|
  {
    seq(|rs|, k requires 0 <= k < |rs| => ReadingDecision(settings, rs[..k], rs[k]))
  }

  lemma ReadingMeaning(settings: Settings, rs: seq<real>, k: nat)
    requires settings.Usable() && k < |rs|
    ensures var w := settings.volSpikeWindow;
            ReadingRun(settings, rs)[k]
              == if k < w || Baseline(w, rs, k) <= 0.0 then None
                 else if SpikesAt(settings, rs, k) then Some(Spiking)
                 else Some(Calm)
  {
    hide Mean;
    var w := settings.volSpikeWindow;
    assert k >= w ==> LastN(rs[..k], w) == rs[k - w..k];
  }

  predicate Nonnegative(rs: seq<real>) {
    forall k :: 0 <= k < |rs| ==> rs[k] >= 0.0
  }

  lemma MeanNonnegative(xs: seq<real>)
    requires xs != [] && Nonnegative(xs)
    ensures Mean(xs, |xs|) >= 0.0
  {
    SumNonnegative(xs);
    DivMonotone(0.0, Sum(xs), |xs| as real);
  }

  /** A baseline of nonnegative readings is positive as soon as one of them is. */
  lemma BaselineSign(w: nat, rs: seq<real>, k: nat)
    requires 0 < w <= k <= |rs| && Nonnegative(rs)
    ensures Baseline(w, rs, k) >= 0.0
    ensures Baseline(w, rs, k) == 0.0 <==> forall j :: k - w <= j < k ==> rs[j] == 0.0
  {
    hide Mean;
    var window := rs[k - w..k];
    MeanZero(window);
    MeanNonnegative(window);
    assert forall j :: k - w <= j < k ==> rs[j] == window[j - (k - w)];
    assert forall j :: 0 <= j < w ==> window[j] == rs[k - w + j];
  }

  lemma ReadingRunPrefix(settings: Settings, rs: seq<real>, n: nat)
    requires settings.Usable() && n <= |rs|
    ensures ReadingRun(settings, rs[..n]) == ReadingRun(settings, rs)[..n]
  {
    hide ReadingDecision;
    assert forall j :: 0 <= j < n ==> rs[..n][..j] == rs[..j];
  }

  /**
   The early return on a zero baseline never strands the remembered state: it is
   "spike" exactly when the very last reading was one.
   */
  lemma {:induction false} SpikeStateIsLastReading(settings: Settings, rs: seq<real>)
    requires settings.Usable() && settings.volSpikeMultiplier > 0.0 && Nonnegative(rs)
    ensures LastDecisive(ReadingRun(settings, rs), Calm)
         == if rs != [] && SpikesAt(settings, rs, |rs| - 1) then Spiking else Calm
  {
    hide ReadingDecision, Mean;
    if rs != [] {
      var n, w := |rs| - 1, settings.volSpikeWindow;
      var front := rs[..n];
      SpikeStateIsLastReading(settings, front);
      ReadingRunPrefix(settings, rs, n);
      ReadingMeaning(settings, rs, n);
      if n > 0 && SpikesAt(settings, front, n - 1) {
        BaselineSign(w, front, n - 1);
        PositiveProduct(Baseline(w, front, n - 1), settings.volSpikeMultiplier);
        assert rs[n - 1] > 0.0;
        if n >= w {
          BaselineSign(w, rs, n);
        }
      }
    }
  }

  /** At reading `k` a spike fires exactly when the predicate holds now and did not at the reading before. */
  predicate SpikeEdge(settings: Settings, rs: seq<real>, k: nat)
    requires settings.Usable() && k < |rs|
  {
    SpikesAt(settings, rs, k) && !(k > 0 && SpikesAt(settings, rs, k - 1))
  }

  ghost predicate FiresOnEdges(settings: Settings)
    requires settings.Usable()
  {
    forall rs: seq<real>, k: nat | Nonnegative(rs) && k < |rs| ::
      Fires(ReadingRun(settings, rs), Calm, k) <==> SpikeEdge(settings, rs, k)
  }

  lemma SpikePrefix(settings: Settings, rs: seq<real>, n: nat, k: nat)
    requires settings.Usable() && k < n <= |rs|
    ensures SpikesAt(settings, rs[..n], k) == SpikesAt(settings, rs, k)
  {
    hide Mean;
    var w := settings.volSpikeWindow;
    assert k >= w ==> rs[..n][k - w..k] == rs[k - w..k];
  }

  lemma SpikeFiresOnEdge(settings: Settings, rs: seq<real>, k: nat)
    requires settings.Usable() && settings.volSpikeMultiplier > 0.0 && Nonnegative(rs) && k < |rs|
    ensures Fires(ReadingRun(settings, rs), Calm, k) <==> SpikeEdge(settings, rs, k)
  {
    hide ReadingDecision, Mean;
    ReadingRunPrefix(settings, rs, k);
    ReadingMeaning(settings, rs, k);
    SpikeStateIsLastReading(settings, rs[..k]);
    if k > 0 {
      SpikePrefix(settings, rs, k, k - 1);
    }
  }

  lemma NonpositiveProduct(x: real, y: real)
    requires x >= 0.0 && y <= 0.0
    ensures x * y <= 0.0
  {
  }

  /**
   With a non-positive multiplier: `w` readings of 1, then `w` of 0, then two of 1.
   The zeros count as spikes until the baseline vanishes, the state stays "spike",
   and the edge at the last reading is swallowed.
   */
  lemma SuppressedEdge(settings: Settings) returns (rs: seq<real>, k: nat)
    requires settings.Usable() && settings.volSpikeMultiplier <= 0.0
    ensures var w := settings.volSpikeWindow;
            && |rs| == 2 * w + 2 && k == 2 * w + 1
            && forall j :: 0 <= j < |rs| ==> rs[j] == if w <= j < 2 * w then 0.0 else 1.0
    ensures Nonnegative(rs) && SpikeEdge(settings, rs, k) && !Fires(ReadingRun(settings, rs), Calm, k)
  {
    hide ReadingDecision, Mean;
    var w := settings.volSpikeWindow;
    rs, k := seq(2 * w + 2, k => if w <= k < 2 * w then 0.0 else 1.0), 2 * w + 1;
    var run := ReadingRun(settings, rs);
    forall j | w <= j <= k
      ensures run[j].Some? ==> run[j] == Some(Spiking)
    {
      ReadingMeaning(settings, rs, j);
      BaselineSign(w, rs, j);
      NonpositiveProduct(Baseline(w, rs, j), settings.volSpikeMultiplier);
    }
    BaselineSign(w, rs, w);
    ReadingMeaning(settings, rs, w);
    BaselineSign(w, rs, k - 1);
    BaselineSign(w, rs, k);
    ReadingMeaning(settings, rs, k);
    assert rs[w - 1] == 1.0 && rs[k - 1] == 1.0;
    StateHeldSince(run, Calm, w, k);
  }

  /** The detector fires on exactly the rising edges if and only if the multiplier is positive. */
  lemma SpikeEdgesIffPositiveMultiplier(settings: Settings)
    requires settings.Usable()
    ensures FiresOnEdges(settings) <==> settings.volSpikeMultiplier > 0.0
  {
    if settings.volSpikeMultiplier > 0.0 {
      forall rs: seq<real>, k: nat | Nonnegative(rs) && k < |rs|
        ensures Fires(ReadingRun(settings, rs), Calm, k) <==> SpikeEdge(settings, rs, k)
      {
        SpikeFiresOnEdge(settings, rs, k);
      }
    } else {
      var rs, k := SuppressedEdge(settings);
    }
  }

  lemma ReadingRunAppend(settings: Settings, rs: seq<real>, v: real)
    requires settings.Usable()
    ensures ReadingRun(settings, rs + [v]) == ReadingRun(settings, rs) + [ReadingDecision(settings, rs, v)]
  {
    hide ReadingDecision;
    assert (rs + [v])[..|rs|] == rs;
    ReadingRunPrefix(settings, rs + [v], |rs|);
  }

  lemma SpikeRunStep(settings: Settings, h: seq<Snapshot>, s: Snapshot)
    requires settings.Usable()
    requires LastDecisive(SpikeRun(settings, h), Calm) == LastDecisive(ReadingRun(settings, Readings(h)), Calm)
    ensures LastDecisive(SpikeRun(settings, h + [s]), Calm)
         == LastDecisive(ReadingRun(settings, Readings(h + [s])), Calm)
  {
    hide ReadingDecision, SpikeRun, ReadingRun, LastDecisive;
    RunsAppend(settings, h, s);
    ObservationsAppend(h, s);
    LastDecisiveAppend(SpikeRun(settings, h), SpikeDecision(settings, h, s), Calm);
    if s.volRealized.Some? {
      var rs, v := Readings(h), s.volRealized.value;
      ReadingRunAppend(settings, rs, v);
      LastDecisiveAppend(ReadingRun(settings, rs), ReadingDecision(settings, rs, v), Calm);
    } else {
      assert Readings(h + [s]) == Readings(h);
    }
  }

  /** Candles without a reading neither fire nor disturb the remembered state. */
  lemma {:induction false} SpikeRunOnReadings(settings: Settings, h: seq<Snapshot>)
    requires settings.Usable()
    ensures LastDecisive(SpikeRun(settings, h), Calm) == LastDecisive(ReadingRun(settings, Readings(h)), Calm)
  {
    if h != [] {
      SpikeRunOnReadings(settings, h[..|h| - 1]);
      SpikeRunStep(settings, h[..|h| - 1], h[|h| - 1]);
      assert h == h[..|h| - 1] + [h[|h| - 1]];
    }
  }

  /**
   With nonnegative volatility and a positive multiplier, a volatility spike is
   reported exactly on a rising edge over the symbol's own readings.
   */
  lemma VolSpikeIsRisingEdge(settings: Settings, prior: seq<Snapshot>, s: Snapshot)
    requires settings.Usable() && settings.volSpikeMultiplier > 0.0
    requires Nonnegative(Readings(prior + [s]))
    ensures SpikeEvent(settings, prior, s).Some?
       <==> s.volRealized.Some? && SpikeEdge(settings, Readings(prior + [s]), |Readings(prior + [s])| - 1)
  {
    hide ReadingDecision, SpikesAt;
    var rs := Readings(prior + [s]);
    ObservationsAppend(prior, s);
    SpikeRunOnReadings(settings, prior);
    if s.volRealized.Some? {
      var k := |rs| - 1;
      assert rs[..k] == Readings(prior);
      ReadingRunPrefix(settings, rs, k);
      SpikeFiresOnEdge(settings, rs, k);
      assert ReadingRun(settings, rs)[k] == SpikeDecision(settings, prior, s);
    }
  }
}
