/**
 Breakout, breakdown, pump, dump and volatility-spike events. Every check compares
 the current candle with a bounded window of earlier ones; the engine keeps only the
 windows and the last state, and is proved to fire exactly on the rising edges of
 predicates over the whole history.
 */
module Events {
  import opened Numbers
  import opened Collections
  import opened Latch
  import opened Market
  import opened Indicators

  datatype Break = NoBreak | Above | Below

  datatype Move = NoMove | Pump | Dump

  datatype Spike = Calm | Spiking

  datatype EventKind = Breakout | Breakdown | PumpEvent | DumpEvent | VolSpike

  datatype EventResult = EventResult(kind: EventKind, magnitude: real, severity: int, price: real)

  function Severity(ratio: real): int {
    if ratio >= 3.0 then 3 else if ratio >= 1.5 then 2 else 1
  }

  // ---- the observations kept -------------------------------------------------

  function Highs(h: seq<Snapshot>): (r: seq<real>)
    ensures |r| == |h|
  {
    seq(|h|, i requires 0 <= i < |h| => h[i].high)
  }

  function Lows(h: seq<Snapshot>): (r: seq<real>)
    ensures |r| == |h|
  {
    seq(|h|, i requires 0 <= i < |h| => h[i].low)
  }

  function PriorCloses(h: seq<Snapshot>): (r: seq<real>)
    ensures |r| == |h|
  {
    seq(|h|, i requires 0 <= i < |h| => h[i].close)
  }

  /** The realized-volatility readings, skipping candles that have none. */
  function Readings(h: seq<Snapshot>): seq<real> {
    if h == [] then []
    else
      var last := h[|h| - 1].volRealized;
      Readings(h[..|h| - 1]) + if last.Some? then [last.value] else []
  }

  // ---- what one candle says against its windows -------------------------------

  function ClassifyBreak(highs: seq<real>, lows: seq<real>, window: nat, close: real): Option<Break>
    requires window > 0 && |highs| == |lows|
  {
    if |highs| < window then None
    else if close > MaxOf(highs) then Some(Above)
    else if close < MinOf(lows) then Some(Below)
    else Some(NoBreak)
  }

  function PctFrom(ref: real, close: real): real
    requires ref != 0.0
  {
    (close - ref) / ref * 100.0
  }

  function ClassifyMove(closes: seq<real>, window: nat, threshold: real, close: real): Option<Move>
    requires window > 0
  {
    if |closes| < window || closes[0] <= 0.0 then None
    else
      var pct := PctFrom(closes[0], close);
      if pct >= threshold then Some(Pump) else if pct <= -threshold then Some(Dump) else Some(NoMove)
  }

  function ClassifySpike(readings: seq<real>, window: nat, multiplier: real, vol: real): Option<Spike>
    requires window > 0
  {
    if |readings| < window || Mean(readings, |readings|) <= 0.0 then None
    else if vol >= Mean(readings, |readings|) * multiplier then Some(Spiking)
    else Some(Calm)
  }

  // ---- the decisions over a whole history -------------------------------------

  function BreakDecision(settings: Settings, prior: seq<Snapshot>, s: Snapshot): Option<Break>
    requires settings.Usable()
  {
    var w := settings.breakoutWindow;
    ClassifyBreak(LastN(Highs(prior), w), LastN(Lows(prior), w), w, s.close)
  }

  function MoveDecision(settings: Settings, prior: seq<Snapshot>, s: Snapshot): Option<Move>
    requires settings.Usable()
  {
    var w := settings.pumpDumpWindow;
    ClassifyMove(LastN(PriorCloses(prior), w), w, settings.pumpDumpPct, s.close)
  }

  function ReadingDecision(settings: Settings, readings: seq<real>, vol: real): Option<Spike>
    requires settings.Usable()
  {
    var w := settings.volSpikeWindow;
    ClassifySpike(LastN(readings, w), w, settings.volSpikeMultiplier, vol)
  }

  function SpikeDecision(settings: Settings, prior: seq<Snapshot>, s: Snapshot): Option<Spike>
    requires settings.Usable()
  {
    if s.volRealized.None? then None else ReadingDecision(settings, Readings(prior), s.volRealized.value)
  }

  function BreakRun(settings: Settings, h: seq<Snapshot>): (r: seq<Option<Break>>)
    requires settings.Usable()
    ensures |r| == |h|
  {
    seq(|h|, i requires 0 <= i < |h| => BreakDecision(settings, h[..i], h[i]))
  }

  function MoveRun(settings: Settings, h: seq<Snapshot>): (r: seq<Option<Move>>)
    requires settings.Usable()
    ensures |r| == |h|
  {
    seq(|h|, i requires 0 <= i < |h| => MoveDecision(settings, h[..i], h[i]))
  }

  function SpikeRun(settings: Settings, h: seq<Snapshot>): (r: seq<Option<Spike>>)
    requires settings.Usable()
    ensures |r| == |h|
  {
    seq(|h|, i requires 0 <= i < |h| => SpikeDecision(settings, h[..i], h[i]))
  }

  lemma RunsAppend(settings: Settings, h: seq<Snapshot>, s: Snapshot)
    requires settings.Usable()
    ensures BreakRun(settings, h + [s]) == BreakRun(settings, h) + [BreakDecision(settings, h, s)]
    ensures MoveRun(settings, h + [s]) == MoveRun(settings, h) + [MoveDecision(settings, h, s)]
    ensures SpikeRun(settings, h + [s]) == SpikeRun(settings, h) + [SpikeDecision(settings, h, s)]
  {
    hide BreakDecision, MoveDecision, SpikeDecision;
    assert forall i :: 0 <= i < |h| ==> (h + [s])[..i] == h[..i];
    assert (h + [s])[..|h|] == h;
  }

  lemma ObservationsAppend(h: seq<Snapshot>, s: Snapshot)
    ensures Highs(h + [s]) == Highs(h) + [s.high]
    ensures Lows(h + [s]) == Lows(h) + [s.low]
    ensures PriorCloses(h + [s]) == PriorCloses(h) + [s.close]
    ensures Readings(h + [s]) == Readings(h) + if s.volRealized.Some? then [s.volRealized.value] else []
  {
    assert (h + [s])[..|h|] == h;
  }

  // ---- the events of a candle, given the earlier history ----------------------

  function BreakResult(highs: seq<real>, lows: seq<real>, above: bool, close: real): EventResult
    requires highs != [] && lows != []
  {
    var level := if above then MaxOf(highs) else MinOf(lows);
    var distance := if above then close - level else level - close;
    var magnitude := if level > 0.0 then distance / level * 100.0 else 0.0;
    EventResult(if above then Breakout else Breakdown, magnitude, Severity(Abs(magnitude)), close)
  }

  function BreakEvent(settings: Settings, prior: seq<Snapshot>, s: Snapshot): Option<EventResult>
    requires settings.Usable()
  {
    var d := BreakDecision(settings, prior, s);
    if !Fired(BreakRun(settings, prior), d, NoBreak) then None
    else Some(BreakResult(LastN(Highs(prior), settings.breakoutWindow),
                          LastN(Lows(prior), settings.breakoutWindow), d.value == Above, s.close))
  }

  function MoveResult(ref: real, threshold: real, pump: bool, close: real): EventResult
    requires ref > 0.0 && threshold != 0.0
  {
    var pct := PctFrom(ref, close);
    EventResult(if pump then PumpEvent else DumpEvent, pct,
                Severity((if pump then pct else Abs(pct)) / threshold), close)
  }

  function MoveEvent(settings: Settings, prior: seq<Snapshot>, s: Snapshot): Option<EventResult>
    requires settings.Usable()
  {
    var d := MoveDecision(settings, prior, s);
    if !Fired(MoveRun(settings, prior), d, NoMove) then None
    else Some(MoveResult(LastN(PriorCloses(prior), settings.pumpDumpWindow)[0], settings.pumpDumpPct,
                         d.value == Pump, s.close))
  }

  function SpikeResult(readings: seq<real>, multiplier: real, vol: real, close: real): EventResult
    requires readings != [] && Mean(readings, |readings|) > 0.0 && multiplier != 0.0
  {
    EventResult(VolSpike, vol, Severity(vol / (Mean(readings, |readings|) * multiplier)), close)
  }

  function SpikeEvent(settings: Settings, prior: seq<Snapshot>, s: Snapshot): Option<EventResult>
    requires settings.Usable()
  {
    var d := SpikeDecision(settings, prior, s);
    if !Fired(SpikeRun(settings, prior), d, Calm) then None
    else Some(SpikeResult(LastN(Readings(prior), settings.volSpikeWindow), settings.volSpikeMultiplier,
                          s.volRealized.value, s.close))
  }

  /** The events of a candle, given the earlier history of its symbol. */
  function EventsOf(settings: Settings, prior: seq<Snapshot>, s: Snapshot): seq<EventResult>
    requires settings.Usable()
  {
    AsSeq(BreakEvent(settings, prior, s)) + AsSeq(MoveEvent(settings, prior, s)) + AsSeq(SpikeEvent(settings, prior, s))
  }

  // ---- the engine --------------------------------------------------------------

  lemma WindowLengths(h: seq<Snapshot>, n: nat)
    ensures |LastN(Highs(h), n)| == |LastN(Lows(h), n)|
  {
  }

  ghost predicate WindowsOf(settings: Settings, h: seq<Snapshot>, highs: seq<real>, lows: seq<real>,
                            closes: seq<real>, readings: seq<real>)
  {
    && highs == LastN(Highs(h), settings.breakoutWindow)
    && lows == LastN(Lows(h), settings.breakoutWindow)
    && closes == LastN(PriorCloses(h), settings.pumpDumpWindow)
    && readings == LastN(Readings(h), settings.volSpikeWindow)
  }

  ghost predicate LogsOf(settings: Settings, h: seq<Snapshot>, breaks: seq<Option<Break>>,
                         moves: seq<Option<Move>>, spikes: seq<Option<Spike>>)
    requires settings.Usable()
  {
    breaks == BreakRun(settings, h) && moves == MoveRun(settings, h) && spikes == SpikeRun(settings, h)
  }

  lemma WindowsStep(settings: Settings, h: seq<Snapshot>, s: Snapshot, highs: seq<real>, lows: seq<real>,
                    closes: seq<real>, readings: seq<real>)
    requires WindowsOf(settings, h, highs, lows, closes, readings)
    ensures WindowsOf(settings, h + [s], PushBounded(highs, s.high, settings.breakoutWindow),
                      PushBounded(lows, s.low, settings.breakoutWindow),
                      PushBounded(closes, s.close, settings.pumpDumpWindow),
                      if s.volRealized.Some? then PushBounded(readings, s.volRealized.value, settings.volSpikeWindow)
                      else readings)
  {
    hide Highs, Lows, PriorCloses, Readings, LastN, PushBounded;
    ObservationsAppend(h, s);
    PushBoundedIsWindow(Highs(h), s.high, settings.breakoutWindow);
    PushBoundedIsWindow(Lows(h), s.low, settings.breakoutWindow);
    PushBoundedIsWindow(PriorCloses(h), s.close, settings.pumpDumpWindow);
    if s.volRealized.Some? {
      PushBoundedIsWindow(Readings(h), s.volRealized.value, settings.volSpikeWindow);
    } else {
      assert Readings(h) + [] == Readings(h);
    }
  }

  lemma LogsStep(settings: Settings, h: seq<Snapshot>, s: Snapshot, breaks: seq<Option<Break>>,
                 moves: seq<Option<Move>>, spikes: seq<Option<Spike>>)
    requires settings.Usable() && LogsOf(settings, h, breaks, moves, spikes)
    ensures LogsOf(settings, h + [s], breaks + [BreakDecision(settings, h, s)],
                   moves + [MoveDecision(settings, h, s)], spikes + [SpikeDecision(settings, h, s)])
  {
    hide BreakRun, MoveRun, SpikeRun, BreakDecision, MoveDecision, SpikeDecision;
    RunsAppend(settings, h, s);
  }

  class EventEngine {
    const settings: Settings
    var highs: map<int, seq<real>>
    var lows: map<int, seq<real>>
    var closes: map<int, seq<real>>
    var volHistory: map<int, seq<real>>
    var breakoutState: map<int, Break>
    var pumpDumpState: map<int, Move>
    var volSpikeState: map<int, Spike>
    ghost var history: map<int, seq<Snapshot>>
    ghost var breakLog: map<int, seq<Option<Break>>>
    ghost var moveLog: map<int, seq<Option<Move>>>
    ghost var spikeLog: map<int, seq<Option<Spike>>>

    ghost predicate WindowsMatch(history: map<int, seq<Snapshot>>)
      reads `highs, `lows, `closes, `volHistory
    {
      forall id: int ::
        WindowsOf(settings, GetOr(history, id, []), GetOr(highs, id, []), GetOr(lows, id, []),
                  GetOr(closes, id, []), GetOr(volHistory, id, []))
    }

    /** Every deque holds the last `maxlen` observations of its symbol. */
    ghost predicate WindowsValid()
      reads `highs, `lows, `closes, `volHistory, `history
    {
      WindowsMatch(history)
    }

    ghost predicate LogsMatch(history: map<int, seq<Snapshot>>)
      requires settings.Usable()
      reads `breakLog, `moveLog, `spikeLog
    {
      forall id: int ::
        LogsOf(settings, GetOr(history, id, []), GetOr(breakLog, id, []), GetOr(moveLog, id, []),
               GetOr(spikeLog, id, []))
    }

    /** The logs are the decisions over the whole history. */
    ghost predicate LogsValid()
      requires settings.Usable()
      reads `history, `breakLog, `moveLog, `spikeLog
    {
      LogsMatch(history)
    }

    ghost predicate Valid()
      reads this
    {
      && settings.Usable()
      && WindowsValid()
      && LogsValid()
      && Tracks(breakoutState, breakLog, NoBreak)
      && Tracks(pumpDumpState, moveLog, NoMove)
      && Tracks(volSpikeState, spikeLog, Calm)
    }

    constructor (settings: Settings)
      requires settings.Usable()
      ensures Valid() && this.settings == settings && history == map[]
    {
      this.settings := settings;
      highs, lows, closes, volHistory := map[], map[], map[], map[];
      breakoutState, pumpDumpState, volSpikeState := map[], map[], map[];
      history, breakLog, moveLog, spikeLog := map[], map[], map[], map[];
    }

    /** The windows and logs of one symbol. */
    ghost predicate Observed(id: int)
      requires settings.Usable()
      reads this
    {
      var h := GetOr(history, id, []);
      && WindowsOf(settings, h, GetOr(highs, id, []), GetOr(lows, id, []), GetOr(closes, id, []),
                   GetOr(volHistory, id, []))
      && LogsOf(settings, h, GetOr(breakLog, id, []), GetOr(moveLog, id, []), GetOr(spikeLog, id, []))
    }

    method CheckBreakout(id: int, s: Snapshot) returns (r: Option<EventResult>)
      requires settings.Usable() && WindowsValid() && LogsValid() && Tracks(breakoutState, breakLog, NoBreak)
      modifies this`breakoutState
      ensures r == BreakEvent(settings, GetOr(history, id, []), s)
      ensures Tracks(breakoutState, Logged(breakLog, id, BreakDecision(settings, GetOr(history, id, []), s)), NoBreak)
    {
      hide Highs, Lows, LastN, BreakRun, Tracks, Logged;
      ghost var h := GetOr(history, id, []);
      assert Observed(id);
      TracksStep(breakoutState, breakLog, NoBreak, id, BreakDecision(settings, h, s));
      var priorHighs, priorLows := GetOr(highs, id, []), GetOr(lows, id, []);
      assert |priorHighs| == |priorLows| by { WindowLengths(h, settings.breakoutWindow); }
      if |priorHighs| < settings.breakoutWindow {
        return None;
      }
      var priorHigh, priorLow := MaxOf(priorHighs), MinOf(priorLows);
      var oldState := GetOr(breakoutState, id, NoBreak);
      if s.close > priorHigh {
        if oldState == Above {
          return None;
        }
        breakoutState := breakoutState[id := Above];
        return Some(BreakResult(priorHighs, priorLows, true, s.close));
      }
      if s.close < priorLow {
        if oldState == Below {
          return None;
        }
        breakoutState := breakoutState[id := Below];
        return Some(BreakResult(priorHighs, priorLows, false, s.close));
      }
      breakoutState := breakoutState[id := NoBreak];
      r := None;
    }

    method CheckPumpDump(id: int, s: Snapshot) returns (r: Option<EventResult>)
      requires settings.Usable() && WindowsValid() && LogsValid() && Tracks(pumpDumpState, moveLog, NoMove)
      modifies this`pumpDumpState
      ensures r == MoveEvent(settings, GetOr(history, id, []), s)
      ensures Tracks(pumpDumpState, Logged(moveLog, id, MoveDecision(settings, GetOr(history, id, []), s)), NoMove)
    {
      hide PriorCloses, LastN, MoveRun, Tracks, Logged, PctFrom, MoveResult;
      ghost var h := GetOr(history, id, []);
      assert Observed(id);
      TracksStep(pumpDumpState, moveLog, NoMove, id, MoveDecision(settings, h, s));
      var window := GetOr(closes, id, []);
      if |window| < settings.pumpDumpWindow {
        return None;
      }
      var ref := window[0];
      if ref <= 0.0 {
        return None;
      }
      var pct := PctFrom(ref, s.close);
      var oldState := GetOr(pumpDumpState, id, NoMove);
      if pct >= settings.pumpDumpPct {
        if oldState == Pump {
          return None;
        }
        pumpDumpState := pumpDumpState[id := Pump];
        return Some(MoveResult(ref, settings.pumpDumpPct, true, s.close));
      }
      if pct <= -settings.pumpDumpPct {
        if oldState == Dump {
          return None;
        }
        pumpDumpState := pumpDumpState[id := Dump];
        return Some(MoveResult(ref, settings.pumpDumpPct, false, s.close));
      }
      pumpDumpState := pumpDumpState[id := NoMove];
      r := None;
    }

    method CheckVolSpike(id: int, s: Snapshot) returns (r: Option<EventResult>)
      requires settings.Usable() && WindowsValid() && LogsValid() && Tracks(volSpikeState, spikeLog, Calm)
      modifies this`volSpikeState
      ensures r == SpikeEvent(settings, GetOr(history, id, []), s)
      ensures Tracks(volSpikeState, Logged(spikeLog, id, SpikeDecision(settings, GetOr(history, id, []), s)), Calm)
    {
      hide Readings, LastN, SpikeRun, Tracks, Logged, Mean, SpikeResult;
      ghost var h := GetOr(history, id, []);
      assert Observed(id);
      TracksStep(volSpikeState, spikeLog, Calm, id, SpikeDecision(settings, h, s));
      if s.volRealized.None? {
        return None;
      }
      var window := GetOr(volHistory, id, []);
      if |window| < settings.volSpikeWindow {
        return None;
      }
      var baseline := Mean(window, |window|);
      if baseline <= 0.0 {
        return None;
      }
      var oldState := GetOr(volSpikeState, id, Calm);
      if s.volRealized.value >= baseline * settings.volSpikeMultiplier {
        if oldState == Spiking {
          return None;
        }
        volSpikeState := volSpikeState[id := Spiking];
        return Some(SpikeResult(window, settings.volSpikeMultiplier, s.volRealized.value, s.close));
      }
      volSpikeState := volSpikeState[id := Calm];
      r := None;
    }

    method UpdateHistory(id: int, s: Snapshot)
      requires settings.Usable() && WindowsMatch(history)
      modifies `highs, `lows, `closes, `volHistory
      ensures WindowsMatch(history[id := GetOr(history, id, []) + [s]])
    {
      hide WindowsOf, PushBounded, GetOr;
      ghost var h := GetOr(history, id, []);
      var priorHighs, priorLows := GetOr(highs, id, []), GetOr(lows, id, []);
      var priorCloses, readings := GetOr(closes, id, []), GetOr(volHistory, id, []);
      WindowsStep(settings, h, s, priorHighs, priorLows, priorCloses, readings);
      highs := highs[id := PushBounded(priorHighs, s.high, settings.breakoutWindow)];
      lows := lows[id := PushBounded(priorLows, s.low, settings.breakoutWindow)];
      closes := closes[id := PushBounded(priorCloses, s.close, settings.pumpDumpWindow)];
      if s.volRealized.Some? {
        volHistory := volHistory[id := PushBounded(readings, s.volRealized.value, settings.volSpikeWindow)];
      }
      forall k: int
        ensures WindowsOf(settings, GetOr(history[id := h + [s]], k, []), GetOr(highs, k, []), GetOr(lows, k, []),
                          GetOr(closes, k, []), GetOr(volHistory, k, []))
      {
        GetOrUpdate(history, id, h + [s], k, []);
        GetOrUpdate(old(highs), id, PushBounded(priorHighs, s.high, settings.breakoutWindow), k, []);
        GetOrUpdate(old(lows), id, PushBounded(priorLows, s.low, settings.breakoutWindow), k, []);
        GetOrUpdate(old(closes), id, PushBounded(priorCloses, s.close, settings.pumpDumpWindow), k, []);
        if s.volRealized.Some? {
          GetOrUpdate(old(volHistory), id, PushBounded(readings, s.volRealized.value, settings.volSpikeWindow), k, []);
        }
        assert old(WindowsOf(settings, GetOr(history, k, []), GetOr(highs, k, []), GetOr(lows, k, []),
                             GetOr(closes, k, []), GetOr(volHistory, k, [])));
      }
    }

    ghost method LogDecisions(id: int, s: Snapshot)
      requires settings.Usable() && LogsMatch(history)
      modifies `breakLog, `moveLog, `spikeLog
      ensures LogsMatch(history[id := GetOr(history, id, []) + [s]])
      ensures breakLog == Logged(old(breakLog), id, BreakDecision(settings, GetOr(history, id, []), s))
      ensures moveLog == Logged(old(moveLog), id, MoveDecision(settings, GetOr(history, id, []), s))
      ensures spikeLog == Logged(old(spikeLog), id, SpikeDecision(settings, GetOr(history, id, []), s))
    {
      hide LogsOf, BreakDecision, MoveDecision, SpikeDecision;
      var h := GetOr(history, id, []);
      LogsStep(settings, h, s, GetOr(breakLog, id, []), GetOr(moveLog, id, []), GetOr(spikeLog, id, []));
      breakLog := Logged(breakLog, id, BreakDecision(settings, h, s));
      moveLog := Logged(moveLog, id, MoveDecision(settings, h, s));
      spikeLog := Logged(spikeLog, id, SpikeDecision(settings, h, s));
      forall k: int
        ensures LogsOf(settings, GetOr(history[id := h + [s]], k, []), GetOr(breakLog, k, []), GetOr(moveLog, k, []),
                       GetOr(spikeLog, k, []))
      {
        assert old(LogsOf(settings, GetOr(history, k, []), GetOr(breakLog, k, []), GetOr(moveLog, k, []),
                          GetOr(spikeLog, k, [])));
      }
    }

    /** The three checks, in order. */
    method Check(id: int, s: Snapshot) returns (results: seq<EventResult>)
      requires Valid()
      modifies `breakoutState, `pumpDumpState, `volSpikeState
      ensures results == EventsOf(settings, GetOr(history, id, []), s)
      ensures var h := GetOr(history, id, []);
              && Tracks(breakoutState, Logged(breakLog, id, BreakDecision(settings, h, s)), NoBreak)
              && Tracks(pumpDumpState, Logged(moveLog, id, MoveDecision(settings, h, s)), NoMove)
              && Tracks(volSpikeState, Logged(spikeLog, id, SpikeDecision(settings, h, s)), Calm)
    {
      hide BreakRun, MoveRun, SpikeRun, BreakDecision, MoveDecision, SpikeDecision, Settings.Usable;
      hide BreakEvent, MoveEvent, SpikeEvent, EventEngine.WindowsMatch, EventEngine.LogsMatch, Tracks, Logged, GetOr;
      results := [];
      var breakout := CheckBreakout(id, s);
      if breakout.Some? {
        results := results + [breakout.value];
      }
      var pumpDump := CheckPumpDump(id, s);
      if pumpDump.Some? {
        results := results + [pumpDump.value];
      }
      var volSpike := CheckVolSpike(id, s);
      if volSpike.Some? {
        results := results + [volSpike.value];
      }
    }

    /** The checks come before the history grows, so the windows exclude the current candle. */
    method Evaluate(id: int, s: Snapshot) returns (results: seq<EventResult>)
      requires Valid()
      modifies this
      ensures Valid()
      ensures history == old(history)[id := GetOr(old(history), id, []) + [s]]
      ensures results == EventsOf(settings, GetOr(old(history), id, []), s)
    {
      hide BreakRun, MoveRun, SpikeRun, BreakDecision, MoveDecision, SpikeDecision, Settings.Usable;
      hide EventsOf, EventEngine.WindowsMatch, EventEngine.LogsMatch, Tracks, Logged, GetOr;
      ghost var h := GetOr(history, id, []);
      results := Check(id, s);
      UpdateHistory(id, s);
      LogDecisions(id, s);
      history := history[id := h + [s]];
    }
  }
}
