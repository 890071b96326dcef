/**
 What the events of the engine are about: for every run of candles, an event is
 emitted exactly on the rising edge of a predicate over the candles themselves.
 */
module CandleEvents {
  import opened Numbers
  import opened Collections
  import opened Market
  import opened Indicators
  import opened Events
  import opened EventEdges
  import opened Engine

  predicate EmitsEvent(settings: Settings, h: seq<Candle>, kind: EventKind)
    requires settings.Usable() && h != []
  {
    exists i :: 0 <= i < |EventsAt(settings, h)| && EventsAt(settings, h)[i].kind == kind
  }

  function CheckOf(settings: Settings, prior: seq<Snapshot>, s: Snapshot, kind: EventKind): Option<EventResult>
    requires settings.Usable()
  {
    match kind
    case Breakout => BreakEvent(settings, prior, s)
    case Breakdown => BreakEvent(settings, prior, s)
    case PumpEvent => MoveEvent(settings, prior, s)
    case DumpEvent => MoveEvent(settings, prior, s)
    case VolSpike => SpikeEvent(settings, prior, s)
  }

  /** Each check reports its own kinds, and nothing a check reports is dropped. */
  lemma KindsOfChecks(settings: Settings, prior: seq<Snapshot>, s: Snapshot, kind: EventKind)
    requires settings.Usable()
    ensures var es, e := EventsOf(settings, prior, s), CheckOf(settings, prior, s, kind);
            (exists i :: 0 <= i < |es| && es[i].kind == kind) <==> e.Some? && e.value.kind == kind
  {
    hide BreakDecision, MoveDecision, SpikeDecision, BreakRun, MoveRun, SpikeRun, Settings.Usable;
    var es := EventsOf(settings, prior, s);
    var b, m, v := BreakEvent(settings, prior, s), MoveEvent(settings, prior, s), SpikeEvent(settings, prior, s);
    assert b.Some? ==> b.value.kind in {Breakout, Breakdown} && es[0] == b.value;
    assert m.Some? ==> m.value.kind in {PumpEvent, DumpEvent} && es[|AsSeq(b)|] == m.value;
    assert v.Some? ==> v.value.kind == VolSpike && es[|AsSeq(b)| + |AsSeq(m)|] == v.value;
  }

  /** The event of a kind at candle `i`, read off the run of snapshots. */
  lemma EmittedByCheck(settings: Settings, h: seq<Candle>, i: nat, kind: EventKind)
    requires settings.Usable() && i < |h|
    ensures var run := SnapshotRun(settings, h);
            var e := CheckOf(settings, run[..i], run[i], kind);
            EmitsEvent(settings, h[..i + 1], kind) <==> e.Some? && e.value.kind == kind
  {
    hide SnapshotOf, CheckOf, EventsOf;
    RunPrefixes(settings, h, i);
    var upTo := h[..i + 1];
    assert upTo[..|upTo| - 1] == h[..i];
    assert EventsAt(settings, upTo) == EventsOf(settings, SnapshotRun(settings, h)[..i], SnapshotRun(settings, h)[i]);
    KindsOfChecks(settings, SnapshotRun(settings, h)[..i], SnapshotRun(settings, h)[i], kind);
  }

  lemma SnapshotFields(settings: Settings, h: seq<Candle>)
    requires settings.Usable()
    ensures var run := SnapshotRun(settings, h);
            forall j :: 0 <= j < |h| ==>
              && run[j].close == h[j].close && run[j].high == h[j].high && run[j].low == h[j].low
              && run[j].volRealized == RealizedVolOf(settings, Closes(h[..j + 1]))
  {
    hide EmaOf, RsiOf, RealizedVolOf, RelativeVolumeOf, Wilder;
  }

  // ---- breakout and breakdown --------------------------------------------------------

  /** Candle `i` closes above every high of the `w` candles before it. */
  predicate BreaksAbove(h: seq<Candle>, w: nat, i: nat)
    requires i < |h|
  {
    i >= w && forall j :: i - w <= j < i ==> h[j].high < h[i].close
  }

  /** Or below every low, and not above every high. */
  predicate BreaksBelow(h: seq<Candle>, w: nat, i: nat)
    requires i < |h|
  {
    i >= w && !BreaksAbove(h, w, i) && forall j :: i - w <= j < i ==> h[j].low > h[i].close
  }

  lemma BreaksAreCloses(settings: Settings, h: seq<Candle>, i: nat)
    requires settings.Usable() && i < |h|
    ensures var run, w := SnapshotRun(settings, h), settings.breakoutWindow;
            && (ClosesAbove(run, w, i) <==> BreaksAbove(h, w, i))
            && (ClosesBelow(run, w, i) <==> BreaksBelow(h, w, i))
  {
    hide SnapshotRun;
    SnapshotFields(settings, h);
  }

  /** A breakout (breakdown) is emitted exactly when the close leaves the window and did not at the candle before. */
  lemma BreakoutsAreRisingEdges(settings: Settings, h: seq<Candle>, i: nat)
    requires settings.Usable() && i < |h|
    ensures var w := settings.breakoutWindow;
            && (EmitsEvent(settings, h[..i + 1], Breakout)
                <==> BreaksAbove(h, w, i) && !(i > 0 && BreaksAbove(h, w, i - 1)))
            && (EmitsEvent(settings, h[..i + 1], Breakdown)
                <==> BreaksBelow(h, w, i) && !(i > 0 && BreaksBelow(h, w, i - 1)))
  {
    hide SnapshotRun, EmitsEvent, BreakEvent, ClosesAbove, ClosesBelow, BreaksAbove, BreaksBelow;
    EmittedByCheck(settings, h, i, Breakout);
    EmittedByCheck(settings, h, i, Breakdown);
    BreakoutIsRisingEdge(settings, SnapshotRun(settings, h), i);
    BreaksAreCloses(settings, h, i);
    if i > 0 {
      BreaksAreCloses(settings, h, i - 1);
    }
  }

  // ---- pump and dump --------------------------------------------------------------------

  predicate ClimbedBy(ref: real, close: real, pct: real) {
    100.0 * (close - ref) >= pct * ref
  }

  predicate FellBy(ref: real, close: real, pct: real) {
    100.0 * (ref - close) >= pct * ref
  }

  /** Candle `i` closes at least the configured percentage above the close `w` candles before it. */
  predicate Rallies(settings: Settings, h: seq<Candle>, i: nat)
    requires i < |h| && forall k :: 0 <= k < |h| ==> h[k].close > 0.0
  {
    var w := settings.pumpDumpWindow;
    i >= w && ClimbedBy(h[i - w].close, h[i].close, settings.pumpDumpPct)
  }

  /** Or at least that much below, and not above. */
  predicate Plunges(settings: Settings, h: seq<Candle>, i: nat)
    requires i < |h| && forall k :: 0 <= k < |h| ==> h[k].close > 0.0
  {
    var w := settings.pumpDumpWindow;
    i >= w && !Rallies(settings, h, i) && FellBy(h[i - w].close, h[i].close, settings.pumpDumpPct)
  }

  /** A percentage is reached exactly when it is reached without division. */
  lemma PctMeaning(ref: real, close: real, pct: real)
    requires ref > 0.0
    ensures PctFrom(ref, close) * ref == 100.0 * (close - ref)
    ensures PctFrom(ref, close) >= pct <==> ClimbedBy(ref, close, pct)
    ensures PctFrom(ref, close) <= -pct <==> FellBy(ref, close, pct)
  {
    var q := (close - ref) / ref;
    var d := q * 100.0;
    assert q * ref == close - ref;
    assert d * ref == 100.0 * (close - ref);
    if d >= pct {
      MulMonotone(pct, d, ref);
    } else {
      PositiveProduct(pct - d, ref);
      assert (pct - d) * ref == pct * ref - d * ref;
    }
    if d <= -pct {
      MulMonotone(d, -pct, ref);
      assert -pct * ref == -(pct * ref);
    } else {
      PositiveProduct(d + pct, ref);
      assert (d + pct) * ref == d * ref + pct * ref;
    }
  }

  lemma RalliesArePumps(settings: Settings, h: seq<Candle>, i: nat)
    requires settings.Usable() && i < |h| && forall k :: 0 <= k < |h| ==> h[k].close > 0.0
    ensures var run := SnapshotRun(settings, h);
            && (Pumps(settings, run, i) <==> Rallies(settings, h, i))
            && (Dumps(settings, run, i) <==> Plunges(settings, h, i))
  {
    hide SnapshotRun, PctFrom, ClimbedBy, FellBy;
    SnapshotFields(settings, h);
    if i >= settings.pumpDumpWindow {
      PctMeaning(h[i - settings.pumpDumpWindow].close, h[i].close, settings.pumpDumpPct);
    }
  }

  /** With positive closes a pump (dump) is emitted exactly when the threshold is met now and was not before. */
  lemma PumpsAreRisingEdges(settings: Settings, h: seq<Candle>, i: nat)
    requires settings.Usable() && i < |h| && forall k :: 0 <= k < |h| ==> h[k].close > 0.0
    ensures EmitsEvent(settings, h[..i + 1], PumpEvent)
       <==> Rallies(settings, h, i) && !(i > 0 && Rallies(settings, h, i - 1))
    ensures EmitsEvent(settings, h[..i + 1], DumpEvent)
       <==> Plunges(settings, h, i) && !(i > 0 && Plunges(settings, h, i - 1))
  {
    hide SnapshotRun, EmitsEvent, MoveEvent, Pumps, Dumps, Rallies, Plunges;
    EmittedByCheck(settings, h, i, PumpEvent);
    EmittedByCheck(settings, h, i, DumpEvent);
    SnapshotFields(settings, h);
    PumpIsRisingEdge(settings, SnapshotRun(settings, h), i);
    RalliesArePumps(settings, h, i);
    if i > 0 {
      RalliesArePumps(settings, h, i - 1);
    }
  }

  // ---- volatility spike --------------------------------------------------------------------

  /** The volatility readings of the candles that have one, in order. */
  function VolReadings(settings: Settings, h: seq<Candle>): seq<real>
    requires settings.Usable()
  {
    Readings(SnapshotRun(settings, h))
  }

  lemma {:induction false} ReadingsNonnegative(run: seq<Snapshot>)
    requires forall j :: 0 <= j < |run| ==> run[j].volRealized.Some? ==> run[j].volRealized.value >= 0.0
    ensures Nonnegative(Readings(run))
  {
    if run != [] {
      ReadingsNonnegative(run[..|run| - 1]);
    }
  }

  lemma VolReadingsNonnegative(settings: Settings, h: seq<Candle>)
    requires settings.Usable() && settings.SqrtNonnegative()
    ensures Nonnegative(VolReadings(settings, h))
  {
    hide SnapshotRun, RealizedVolOf;
    SnapshotFields(settings, h);
    forall j | 0 <= j < |h|
      ensures SnapshotRun(settings, h)[j].volRealized.Some? ==> SnapshotRun(settings, h)[j].volRealized.value >= 0.0
    {
      RealizedVolNonnegative(settings, Closes(h[..j + 1]));
    }
    ReadingsNonnegative(SnapshotRun(settings, h));
  }

  lemma SpikeIsVolSpike(settings: Settings, prior: seq<Snapshot>, s: Snapshot)
    requires settings.Usable()
    ensures SpikeEvent(settings, prior, s).Some? ==> SpikeEvent(settings, prior, s).value.kind == VolSpike
  {
    hide SpikeDecision, SpikeRun;
  }

  /**
   With a positive multiplier a volatility spike is emitted exactly when the candle has
   a reading, and it is a spike over the baseline while the reading before was not.
   */
  lemma SpikesAreRisingEdges(settings: Settings, h: seq<Candle>, i: nat)
    requires settings.Usable() && settings.SqrtNonnegative() && settings.volSpikeMultiplier > 0.0 && i < |h|
    ensures var rs := VolReadings(settings, h[..i + 1]);
            EmitsEvent(settings, h[..i + 1], VolSpike)
            <==> RealizedVolOf(settings, Closes(h[..i + 1])).Some? && |rs| > 0 && SpikeEdge(settings, rs, |rs| - 1)
  {
    hide SnapshotRun, EmitsEvent, SpikeEvent, SpikeEdge, RealizedVolOf;
    var run := SnapshotRun(settings, h);
    EmittedByCheck(settings, h, i, VolSpike);
    SnapshotFields(settings, h);
    RunPrefixes(settings, h, i + 1);
    assert run[..i + 1] == run[..i] + [run[i]];
    VolReadingsNonnegative(settings, h[..i + 1]);
    ObservationsAppend(run[..i], run[i]);
    VolSpikeIsRisingEdge(settings, run[..i], run[i]);
    SpikeIsVolSpike(settings, run[..i], run[i]);
  }
}
