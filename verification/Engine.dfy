/**
 The analytics engine: one closed candle is folded into its symbol's indicators, the
 trend is derived, and signals and events are evaluated, in that order. What it
 writes is specified by functions of the symbol's own candle history alone.
 */
module Engine {
  import opened Collections
  import opened Latch
  import opened Market
  import opened Indicators
  import opened Calculators
  import opened Trend
  import opened Signals
  import opened Events

  // ---- a symbol's whole history ------------------------------------------------

  function TrendOf(settings: Settings, h: seq<Candle>): Option<TrendResult>
    requires settings.Usable() && h != []
  {
    ComputeTrend(SnapshotOf(settings, h))
  }

  function SnapshotRun(settings: Settings, h: seq<Candle>): (r: seq<Snapshot>)
    requires settings.Usable()
    ensures |r| == |h|
  {
    seq(|h|, i requires 0 <= i < |h| => SnapshotOf(settings, h[..i + 1]))
  }

  function PressureAt(settings: Settings, h: seq<Candle>): Option<Pressure>
    requires settings.Usable() && h != []
  {
    PressureDecision(settings, SnapshotOf(settings, h), TrendOf(settings, h))
  }

  function HighvolAt(settings: Settings, h: seq<Candle>): Option<Volatility>
    requires settings.Usable() && h != []
  {
    HighvolDecision(settings, SnapshotOf(settings, h))
  }

  function PressureRun(settings: Settings, h: seq<Candle>): (r: seq<Option<Pressure>>)
    requires settings.Usable()
    ensures |r| == |h|
  {
    seq(|h|, i requires 0 <= i < |h| => PressureAt(settings, h[..i + 1]))
  }

  function HighvolRun(settings: Settings, h: seq<Candle>): (r: seq<Option<Volatility>>)
    requires settings.Usable()
    ensures |r| == |h|
  {
    seq(|h|, i requires 0 <= i < |h| => HighvolAt(settings, h[..i + 1]))
  }

  /** Runs only look backwards: the run of a prefix is a prefix of the run. */
  lemma RunPrefixes(settings: Settings, h: seq<Candle>, n: nat)
    requires settings.Usable() && n <= |h|
    ensures SnapshotRun(settings, h[..n]) == SnapshotRun(settings, h)[..n]
    ensures PressureRun(settings, h[..n]) == PressureRun(settings, h)[..n]
    ensures HighvolRun(settings, h[..n]) == HighvolRun(settings, h)[..n]
  {
    hide SnapshotOf, PressureAt, HighvolAt;
    forall i | 0 <= i < n
      ensures SnapshotRun(settings, h[..n])[i] == SnapshotRun(settings, h)[i]
      ensures PressureRun(settings, h[..n])[i] == PressureRun(settings, h)[i]
      ensures HighvolRun(settings, h[..n])[i] == HighvolRun(settings, h)[i]
    {
      assert h[..n][..i + 1] == h[..i + 1];
    }
  }

  lemma RunAppend(settings: Settings, h: seq<Candle>, c: Candle)
    requires settings.Usable()
    ensures SnapshotRun(settings, h + [c]) == SnapshotRun(settings, h) + [SnapshotOf(settings, h + [c])]
    ensures PressureRun(settings, h + [c]) == PressureRun(settings, h) + [PressureAt(settings, h + [c])]
    ensures HighvolRun(settings, h + [c]) == HighvolRun(settings, h) + [HighvolAt(settings, h + [c])]
  {
    hide SnapshotOf, PressureAt, HighvolAt;
    RunPrefixes(settings, h + [c], |h|);
    assert (h + [c])[..|h|] == h && (h + [c])[..|h| + 1] == h + [c];
  }

  /** The signals the last candle of a history emits. */
  function SignalsOf(settings: Settings, h: seq<Candle>): seq<SignalResult>
    requires settings.Usable() && h != []
  {
    if !settings.enableSignals then []
    else
      var prior := h[..|h| - 1];
      AsSeq(PressureSignal(settings, PressureRun(settings, prior), SnapshotOf(settings, h), TrendOf(settings, h)))
      + AsSeq(HighvolSignal'(settings, HighvolRun(settings, prior), SnapshotOf(settings, h)))
  }

  /** The events the last candle of a history emits. */
  function EventsAt(settings: Settings, h: seq<Candle>): seq<EventResult>
    requires settings.Usable() && h != []
  {
    EventsOf(settings, SnapshotRun(settings, h[..|h| - 1]), SnapshotOf(settings, h))
  }

  // ---- the engine ----------------------------------------------------------------

  datatype IndicatorRow = IndicatorRow(symbolId: int, ts: int, emaFast: Option<real>, emaSlow: Option<real>,
                                       rsi: Option<real>, atr: Option<real>, volRealized: Option<real>,
                                       volRel: Option<real>, trendScore: Option<real>)

  datatype SignalRow = SignalRow(symbolId: int, ts: int, signal: SignalResult)

  datatype EventRow = EventRow(symbolId: int, ts: int, event: EventResult)

  function IndicatorRowOf(settings: Settings, id: int, h: seq<Candle>): IndicatorRow
    requires settings.Usable() && h != []
  {
    var s, trend := SnapshotOf(settings, h), TrendOf(settings, h);
    IndicatorRow(id, h[|h| - 1].ts, s.emaFast, s.emaSlow, s.rsi, s.atr, s.volRealized, s.volRel,
                 if trend.Some? then Some(trend.value.score) else None)
  }

  function SignalRows(id: int, ts: int, signals: seq<SignalResult>): seq<SignalRow> {
    seq(|signals|, i requires 0 <= i < |signals| => SignalRow(id, ts, signals[i]))
  }

  function EventRows(id: int, ts: int, events: seq<EventResult>): seq<EventRow> {
    seq(|events|, i requires 0 <= i < |events| => EventRow(id, ts, events[i]))
  }

  lemma RowCounts(id: int, ts: int, signals: seq<SignalResult>, events: seq<EventResult>)
    ensures |SignalRows(id, ts, signals)| == |signals| && |EventRows(id, ts, events)| == |events|
  {
  }

  /** The cached id of a symbol, or else the repository's. */
  function ResolvedId(cache: map<string, int>, repo: map<string, int>, symbol: string): Option<int> {
    if symbol in cache then Some(cache[symbol])
    else if symbol in repo then Some(repo[symbol])
    else None
  }

  /** The engine's dictionary of per-symbol indicators, created on first sight. */
  class IndicatorBook {
    const settings: Settings
    var indicators: map<int, SymbolIndicators>
    ghost var candles: map<int, seq<Candle>>
    ghost var Repr: set<object>

    /** Every symbol owns its calculators. */
    ghost predicate Separated()
      reads this, indicators.Values
    {
      && this in Repr
      && (forall id :: id in indicators ==>
            && indicators[id] in indicators[id].Repr && indicators[id].Repr <= Repr
            && this !in indicators[id].Repr)
      && (forall id, id' :: id in indicators && id' in indicators && id != id' ==>
            indicators[id].Repr !! indicators[id'].Repr)
    }

    /** A symbol's calculators have been fed exactly its candles. */
    ghost predicate Fed(id: int)
      requires id in indicators
      reads this, indicators[id], indicators[id].Repr
    {
      && indicators[id].Valid() && indicators[id].settings == settings
      && id in candles && indicators[id].history == candles[id]
    }

    ghost predicate Valid()
      reads this, Repr
    {
      && this in Repr && indicators.Values <= Repr
      && settings.Usable() && Separated() && candles.Keys == indicators.Keys
      && (forall k :: k in indicators ==> Fed(k))
    }

    constructor (settings: Settings)
      requires settings.Usable()
      ensures Valid() && fresh(Repr) && this.settings == settings && candles == map[]
    {
      this.settings := settings;
      indicators, candles := map[], map[];
      Repr := {this};
    }

    method Ensure(id: int)
      requires Valid()
      modifies this
      ensures Valid() && id in indicators && fresh(Repr - old(Repr))
      ensures candles == old(candles)[id := GetOr(old(candles), id, [])]
    {
      hide SymbolIndicators.Valid, Settings.Usable;
      if id !in indicators {
        var created := new SymbolIndicators(settings);
        indicators := indicators[id := created];
        Repr := Repr + created.Repr;
        candles := candles[id := []];
        assert forall k :: k in old(indicators) ==> k in indicators && indicators[k] == old(indicators)[k];
      }
    }

    /** Fold a candle into the indicators of its symbol. */
    method Fold(id: int, candle: Candle) returns (s: Snapshot)
      requires Valid()
      modifies Repr
      ensures Valid() && fresh(Repr - old(Repr))
      ensures candles == old(candles)[id := GetOr(old(candles), id, []) + [candle]]
      ensures s == SnapshotOf(settings, candles[id])
    {
      hide SnapshotOf, SymbolIndicators.Valid, Settings.Usable;
      Ensure(id);
      assert Fed(id);
      s := indicators[id].Update(candle);
      candles := candles[id := candles[id] + [candle]];
    }
  }

  /** What the latest trends and the two engines keep, per symbol. */
  datatype Memory = Memory(
    trends: map<int, TrendResult>,
    snapshots: map<int, seq<Snapshot>>,
    pressure: map<int, seq<Option<Pressure>>>,
    highvol: map<int, seq<Option<Volatility>>>)

  /** What is kept of one symbol is exactly what its candles `h` say. */
  ghost predicate Remembers(settings: Settings, m: Memory, id: int, h: seq<Candle>)
    requires settings.Usable()
  {
    && GetOr(m.snapshots, id, []) == SnapshotRun(settings, h)
    && (settings.enableSignals ==>
          && GetOr(m.pressure, id, []) == PressureRun(settings, h)
          && GetOr(m.highvol, id, []) == HighvolRun(settings, h))
    && (id in m.trends <==> h != [] && TrendOf(settings, h).Some?)
    && (id in m.trends ==> m.trends[id] == TrendOf(settings, h).value)
  }

  ghost predicate RemembersAll(settings: Settings, m: Memory, histories: map<int, seq<Candle>>)
    requires settings.Usable()
  {
    forall id: int :: Remembers(settings, m, id, GetOr(histories, id, []))
  }

  /** The memory after one more candle of a symbol, whose history is now `h`. */
  ghost function Shown(settings: Settings, m: Memory, id: int, h: seq<Candle>): Memory
    requires settings.Usable() && h != []
  {
    var trend := TrendOf(settings, h);
    Memory(if trend.Some? then m.trends[id := trend.value] else m.trends - {id},
           m.snapshots[id := GetOr(m.snapshots, id, []) + [SnapshotOf(settings, h)]],
           if settings.enableSignals then Logged(m.pressure, id, PressureAt(settings, h)) else m.pressure,
           if settings.enableSignals then Logged(m.highvol, id, HighvolAt(settings, h)) else m.highvol)
  }

  lemma ShownRemembers(settings: Settings, m: Memory, id: int, prior: seq<Candle>, candle: Candle)
    requires settings.Usable() && Remembers(settings, m, id, prior)
    ensures Remembers(settings, Shown(settings, m, id, prior + [candle]), id, prior + [candle])
  {
    hide SnapshotOf, SnapshotRun, PressureRun, HighvolRun, TrendOf, PressureAt, HighvolAt, Settings.Usable;
    RunAppend(settings, prior, candle);
  }

  lemma OthersRemembered(settings: Settings, m: Memory, id: int, h: seq<Candle>, k: int, other: seq<Candle>)
    requires settings.Usable() && h != [] && Remembers(settings, m, k, other) && k != id
    ensures Remembers(settings, Shown(settings, m, id, h), k, other)
  {
    hide SnapshotOf, SnapshotRun, PressureRun, HighvolRun, TrendOf, PressureAt, HighvolAt, Settings.Usable;
  }

  lemma AllShown(settings: Settings, m: Memory, histories: map<int, seq<Candle>>, id: int, candle: Candle)
    requires settings.Usable() && RemembersAll(settings, m, histories)
    ensures var h := GetOr(histories, id, []) + [candle];
            RemembersAll(settings, Shown(settings, m, id, h), histories[id := h])
  {
    hide Remembers, Shown, Settings.Usable;
    var h := GetOr(histories, id, []) + [candle];
    var after := histories[id := h];
    forall k: int
      ensures Remembers(settings, Shown(settings, m, id, h), k, GetOr(after, k, []))
    {
      assert Remembers(settings, m, k, GetOr(histories, k, []));
      if k == id {
        ShownRemembers(settings, m, id, GetOr(histories, id, []), candle);
      } else {
        OthersRemembered(settings, m, id, h, k, GetOr(histories, k, []));
      }
    }
  }

  /** What the two engines report on a candle follows from what they remember. */
  lemma ReportsFollow(settings: Settings, m: Memory, histories: map<int, seq<Candle>>, id: int, candle: Candle)
    requires settings.Usable() && RemembersAll(settings, m, histories)
    ensures var h := GetOr(histories, id, []) + [candle];
            var s := SnapshotOf(settings, h);
            && SignalsOf(settings, h)
            == (if !settings.enableSignals then []
                else AsSeq(PressureSignal(settings, GetOr(m.pressure, id, []), s, TrendOf(settings, h)))
                     + AsSeq(HighvolSignal'(settings, GetOr(m.highvol, id, []), s)))
            && EventsAt(settings, h) == EventsOf(settings, GetOr(m.snapshots, id, []), s)
  {
    hide SnapshotOf, SnapshotRun, PressureRun, HighvolRun, ComputeTrend, PressureSignal, HighvolSignal', EventsOf;
    var prior := GetOr(histories, id, []);
    assert Remembers(settings, m, id, prior);
    assert (prior + [candle])[..|prior|] == prior;
  }

  class AnalyticsEngine {
    const settings: Settings
    const book: IndicatorBook
    const signalEngine: SignalEngine
    const eventEngine: EventEngine
    var symbolIds: map<string, int>
    var latestTrend: map<int, TrendResult>
    var candlesProcessed: nat
    var signalsEmitted: nat
    var eventsEmitted: nat
    var indicatorTable: seq<IndicatorRow>
    var signalTable: seq<SignalRow>
    var eventTable: seq<EventRow>

    ghost function Kept(): Memory
      reads `latestTrend, signalEngine, eventEngine
    {
      Memory(latestTrend, eventEngine.history, signalEngine.pressureLog, signalEngine.highvolLog)
    }

    /** Both engines have been shown exactly what the candles of every symbol say. */
    ghost predicate Judged(histories: map<int, seq<Candle>>)
      requires settings.Usable()
      reads `latestTrend, signalEngine, eventEngine
    {
      && signalEngine.settings == settings && signalEngine.Valid()
      && eventEngine.settings == settings && eventEngine.Valid()
      && RemembersAll(settings, Kept(), histories)
    }

    ghost function Repr(): set<object>
      reads book
    {
      {this, signalEngine, eventEngine} + book.Repr
    }

    ghost function Candles(): map<int, seq<Candle>>
      reads book
    {
      book.candles
    }

    ghost predicate Valid()
      reads this, book, Repr()
    {
      && settings.Usable() && book.settings == settings && book.Valid()
      && {this, signalEngine, eventEngine} !! book.Repr
      && Judged(book.candles)
    }

    constructor (settings: Settings, symbolIds: map<string, int>)
      requires settings.Usable()
      ensures Valid() && fresh(Repr())
      ensures this.settings == settings && this.symbolIds == symbolIds && Candles() == map[]
      ensures indicatorTable == [] && signalTable == [] && eventTable == []
    {
      hide SignalEngine.Valid, EventEngine.Valid, IndicatorBook.Valid, TrendOf, SnapshotOf;
      this.settings := settings;
      this.symbolIds := symbolIds;
      var indicators := new IndicatorBook(settings);
      var signals := new SignalEngine(settings);
      var events := new EventEngine(settings);
      book, signalEngine, eventEngine := indicators, signals, events;
      latestTrend := map[];
      candlesProcessed, signalsEmitted, eventsEmitted := 0, 0, 0;
      indicatorTable, signalTable, eventTable := [], [], [];
    }

    method ResolveSymbolId(symbol: string, repo: map<string, int>) returns (id: Option<int>)
      modifies `symbolIds
      ensures id == ResolvedId(old(symbolIds), repo, symbol)
      ensures symbolIds == if id.Some? then old(symbolIds)[symbol := id.value] else old(symbolIds)
    {
      if symbol in symbolIds {
        return Some(symbolIds[symbol]);
      }
      id := if symbol in repo then Some(repo[symbol]) else None;
      if id.Some? {
        symbolIds := symbolIds[symbol := id.value];
      }
    }

    /** Trend, signals and events of a candle whose snapshot is `s`, in that order. */
    method Judge(id: int, s: Snapshot, ghost histories: map<int, seq<Candle>>, ghost candle: Candle)
      returns (trend: Option<TrendResult>, signals: seq<SignalResult>, events: seq<EventResult>)
      requires settings.Usable() && Judged(histories)
      requires s == SnapshotOf(settings, GetOr(histories, id, []) + [candle])
      modifies `latestTrend, signalEngine, eventEngine
      ensures Judged(histories[id := GetOr(histories, id, []) + [candle]])
      ensures trend == TrendOf(settings, GetOr(histories, id, []) + [candle])
      ensures signals == SignalsOf(settings, GetOr(histories, id, []) + [candle])
      ensures events == EventsAt(settings, GetOr(histories, id, []) + [candle])
    {
      hide SnapshotOf, ComputeTrend, SignalsOf, EventsAt, Settings.Usable, RemembersAll;
      hide PressureDecision, HighvolDecision, PressureSignal, HighvolSignal', EventsOf;
      hide SignalEngine.Valid, EventEngine.Valid;
      ghost var prior := GetOr(histories, id, []);
      AllShown(settings, Kept(), histories, id, candle);
      ReportsFollow(settings, Kept(), histories, id, candle);
      trend := ComputeTrend(s);
      if trend.Some? {
        latestTrend := latestTrend[id := trend.value];
      } else {
        latestTrend := latestTrend - {id};
      }
      signals := [];
      if settings.enableSignals {
        signals := signalEngine.Evaluate(id, s, trend);
      }
      events := eventEngine.Evaluate(id, s);
    }

    /** Append the rows of a candle and count them. */
    method Record(id: int, ts: int, signals: seq<SignalResult>, events: seq<EventResult>)
      modifies `signalTable, `eventTable, `signalsEmitted, `eventsEmitted, `candlesProcessed
      ensures signalTable == old(signalTable) + SignalRows(id, ts, signals)
      ensures eventTable == old(eventTable) + EventRows(id, ts, events)
      ensures signalsEmitted == old(signalsEmitted) + |signals|
      ensures eventsEmitted == old(eventsEmitted) + |events|
      ensures candlesProcessed == old(candlesProcessed) + 1
    {
      for i := 0 to |signals|
        invariant signalTable == old(signalTable) + SignalRows(id, ts, signals[..i])
        invariant signalsEmitted == old(signalsEmitted) + i
        invariant eventTable == old(eventTable) && eventsEmitted == old(eventsEmitted)
        invariant candlesProcessed == old(candlesProcessed)
      {
        signalTable := signalTable + [SignalRow(id, ts, signals[i])];
        signalsEmitted := signalsEmitted + 1;
        assert SignalRows(id, ts, signals[..i + 1]) == SignalRows(id, ts, signals[..i]) + [SignalRow(id, ts, signals[i])];
      }
      assert signals[..|signals|] == signals;
      for i := 0 to |events|
        invariant eventTable == old(eventTable) + EventRows(id, ts, events[..i])
        invariant eventsEmitted == old(eventsEmitted) + i
        invariant signalTable == old(signalTable) + SignalRows(id, ts, signals)
        invariant signalsEmitted == old(signalsEmitted) + |signals|
        invariant candlesProcessed == old(candlesProcessed)
      {
        eventTable := eventTable + [EventRow(id, ts, events[i])];
        eventsEmitted := eventsEmitted + 1;
        assert EventRows(id, ts, events[..i + 1]) == EventRows(id, ts, events[..i]) + [EventRow(id, ts, events[i])];
      }
      assert events[..|events|] == events;
      candlesProcessed := candlesProcessed + 1;
    }

    /** The callback for a candle; candles still open or of unknown symbols are ignored. */
    method HandleCandle(candle: Candle, repo: map<string, int>)
      requires Valid()
      modifies Repr()
      ensures Valid() && fresh(Repr() - old(Repr()))
      ensures var id := ResolvedId(old(symbolIds), repo, candle.symbol);
              if !candle.closed || id.None? then
                && Candles() == old(Candles()) && indicatorTable == old(indicatorTable)
                && signalTable == old(signalTable) && eventTable == old(eventTable)
                && symbolIds == old(symbolIds)
              else
                var h := GetOr(old(Candles()), id.value, []) + [candle];
                && Candles() == old(Candles())[id.value := h]
                && indicatorTable == old(indicatorTable) + [IndicatorRowOf(settings, id.value, h)]
                && signalTable == old(signalTable) + SignalRows(id.value, candle.ts, SignalsOf(settings, h))
                && eventTable == old(eventTable) + EventRows(id.value, candle.ts, EventsAt(settings, h))
                && symbolIds == old(symbolIds)[candle.symbol := id.value]
      ensures var id := ResolvedId(old(symbolIds), repo, candle.symbol);
              candlesProcessed == old(candlesProcessed) + if !candle.closed || id.None? then 0 else 1
      ensures signalsEmitted - old(signalsEmitted) == |signalTable| - |old(signalTable)|
      ensures eventsEmitted - old(eventsEmitted) == |eventTable| - |old(eventTable)|
    {
      hide SnapshotOf, TrendOf, SignalsOf, EventsAt, Settings.Usable;
      hide RemembersAll, SignalRows, EventRows;
      hide SignalEngine.Valid, EventEngine.Valid, IndicatorBook.Valid;
      if !candle.closed {
        return;
      }
      var resolved := ResolveSymbolId(candle.symbol, repo);
      if resolved.None? {
        return;
      }
      var id := resolved.value;
      ghost var histories := book.candles;
      var s := book.Fold(id, candle);
      var trend, signals, events := Judge(id, s, histories, candle);
      RowCounts(id, candle.ts, signals, events);
      indicatorTable := indicatorTable + [IndicatorRow(id, candle.ts, s.emaFast, s.emaSlow, s.rsi, s.atr,
                                                       s.volRealized, s.volRel,
                                                       if trend.Some? then Some(trend.value.score) else None)];
      Record(id, candle.ts, signals, events);
    }
  }
}
