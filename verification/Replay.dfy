/**
 The offline replay of one symbol, the independent replay that tags every candle with
 its regime, and the agreement of the two.
 */
module Replay {
  import opened Numbers
  import opened Collections
  import opened Market
  import opened Indicators
  import opened Calculators
  import opened Trend
  import opened Signals
  import opened Engine
  import opened ForwardReturns

  // ---- captured signals ----------------------------------------------------------

  datatype Core = Core(ts: int, kind: Kind, confidence: int, close: real)

  datatype Entry = Entry(core: Core, fwdReturns: map<int, Option<real>>)

  function CoreOf(candle: Candle, s: SignalResult): Core {
    Core(candle.ts, s.kind, s.confidence, candle.close)
  }

  function FwdMap(candles: seq<Candle>, idx: nat, horizons: seq<int>, lag: nat, intervalMs: int)
    : map<int, Option<real>>
  {
    map h | h in horizons :: ForwardReturn(candles, idx, h, lag, intervalMs)
  }

  /** What the replay captures at candle `idx`. */
  function EntriesAt(settings: Settings, candles: seq<Candle>, idx: nat, horizons: seq<int>, lag: nat, intervalMs: int)
    : seq<Entry>
    requires settings.Usable() && idx < |candles|
  {
    var signals := SignalsOf(settings, candles[..idx + 1]);
    seq(|signals|, i requires 0 <= i < |signals| =>
          Entry(CoreOf(candles[idx], signals[i]), FwdMap(candles, idx, horizons, lag, intervalMs)))
  }

  /** What the replay has captured after the first `n` candles. */
  function Captured(settings: Settings, candles: seq<Candle>, n: nat, horizons: seq<int>, lag: nat, intervalMs: int)
    : seq<Entry>
    requires settings.Usable() && n <= |candles|
  {
    if n == 0 then []
    else Captured(settings, candles, n - 1, horizons, lag, intervalMs)
         + EntriesAt(settings, candles, n - 1, horizons, lag, intervalMs)
  }

  /** The signals a candle has added, each with the candle's forward returns. */
  method Capture(captured: seq<Entry>, candle: Candle, rows: seq<SignalRow>, fwd: map<int, Option<real>>)
    returns (grown: seq<Entry>)
    ensures grown == captured
                   + seq(|rows|, i requires 0 <= i < |rows| => Entry(CoreOf(candle, rows[i].signal), fwd))
  {
    ghost var entries := seq(|rows|, i requires 0 <= i < |rows| => Entry(CoreOf(candle, rows[i].signal), fwd));
    grown := captured;
    for i := 0 to |rows|
      invariant grown == captured + entries[..i]
    {
      grown := grown + [Entry(Core(candle.ts, rows[i].signal.kind, rows[i].signal.confidence, candle.close), fwd)];
    }
    assert entries[..|rows|] == entries;
  }

  /** Feed the engine one candle of the replayed symbol, and return the signal rows it adds. */
  method Feed(engine: AnalyticsEngine, base: string, id: int, candle: Candle, ghost prior: seq<Candle>)
    returns (rows: seq<SignalRow>)
    requires engine.Valid() && engine.symbolIds == map[base := id] && GetOr(engine.Candles(), id, []) == prior
    requires candle.closed && candle.symbol == base
    modifies engine.Repr()
    ensures engine.Valid() && fresh(engine.Repr() - old(engine.Repr())) && engine.symbolIds == map[base := id]
    ensures GetOr(engine.Candles(), id, []) == prior + [candle]
    ensures engine.settings.Usable() && rows == SignalRows(id, candle.ts, SignalsOf(engine.settings, prior + [candle]))
  {
    hide SignalsOf, EventsAt, IndicatorRowOf, Settings.Usable, AnalyticsEngine.Judged, IndicatorBook.Valid, SignalRows;
    var before := |engine.signalTable|;
    engine.HandleCandle(candle, map[]);
    rows := engine.signalTable[before..];
  }

  /** One more candle is captured. */
  lemma CapturedNext(settings: Settings, candles: seq<Candle>, idx: nat, horizons: seq<int>, lag: nat, intervalMs: int,
                     id: int, fwd: map<int, Option<real>>)
    requires settings.Usable() && idx < |candles| && fwd == FwdMap(candles, idx, horizons, lag, intervalMs)
    ensures var rows := SignalRows(id, candles[idx].ts, SignalsOf(settings, candles[..idx + 1]));
            Captured(settings, candles, idx + 1, horizons, lag, intervalMs)
            == Captured(settings, candles, idx, horizons, lag, intervalMs)
               + seq(|rows|, i requires 0 <= i < |rows| => Entry(CoreOf(candles[idx], rows[i].signal), fwd))
  {
    hide SignalsOf, CoreOf;
  }

  method ReplaySymbol(settings: Settings, base: string, symbolId: Option<int>, history: seq<Candle>,
                      horizons: seq<int>, lag: nat, intervalMs: int)
    returns (captured: seq<Entry>, candles: seq<Candle>)
    requires settings.Usable()
    requires forall i :: 0 <= i < |history| ==> history[i].closed && history[i].symbol == base
    ensures symbolId.None? ==> captured == [] && candles == []
    ensures symbolId.Some? ==> candles == history
    ensures symbolId.Some? ==> captured == Captured(settings, history, |history|, horizons, lag, intervalMs)
  {
    hide SignalsOf, Settings.Usable, AnalyticsEngine.Valid, SignalRows, CoreOf, EntriesAt;
    if symbolId.None? {
      return [], [];
    }
    var id := symbolId.value;
    candles := history;
    var engine := new AnalyticsEngine(settings, map[base := id]);
    captured := [];
    for idx := 0 to |candles|
      invariant engine.Valid() && fresh(engine.Repr()) && engine.settings == settings
      invariant engine.symbolIds == map[base := id]
      invariant GetOr(engine.Candles(), id, []) == candles[..idx]
      invariant captured == Captured(settings, candles, idx, horizons, lag, intervalMs)
    {
      var rows := Feed(engine, base, id, candles[idx], candles[..idx]);
      assert candles[..idx + 1] == candles[..idx] + [candles[idx]];
      var fwd := ForwardReturnsAt(candles, idx, horizons, lag, intervalMs);
      assert fwd == FwdMap(candles, idx, horizons, lag, intervalMs);
      CapturedNext(settings, candles, idx, horizons, lag, intervalMs, id, fwd);
      captured := Capture(captured, candles[idx], rows, fwd);
    }
  }

  /** The captured signals without their forward returns. */
  function Trace(settings: Settings, candles: seq<Candle>, n: nat): seq<Core>
    requires settings.Usable() && n <= |candles|
  {
    if n == 0 then []
    else
      var signals := SignalsOf(settings, candles[..n]);
      Trace(settings, candles, n - 1)
      + seq(|signals|, i requires 0 <= i < |signals| => CoreOf(candles[n - 1], signals[i]))
  }

  lemma {:induction false} CapturedTrace(settings: Settings, candles: seq<Candle>, n: nat, horizons: seq<int>, lag: nat,
                                         intervalMs: int)
    requires settings.Usable() && n <= |candles|
    ensures var c := Captured(settings, candles, n, horizons, lag, intervalMs);
            Trace(settings, candles, n) == seq(|c|, i requires 0 <= i < |c| => c[i].core)
  {
    hide SignalsOf, FwdMap;
    if n > 0 {
      CapturedTrace(settings, candles, n - 1, horizons, lag, intervalMs);
    }
  }

  lemma {:induction false} TraceGrows(settings: Settings, candles: seq<Candle>, n: nat, m: nat)
    requires settings.Usable() && n <= m <= |candles|
    ensures Trace(settings, candles, n) <= Trace(settings, candles, m)
  {
    hide SignalsOf, CoreOf;
    if n < m {
      TraceGrows(settings, candles, n, m - 1);
    }
  }

  /** Appending candles never changes a signal already captured. */
  lemma {:induction false} TraceIsStable(settings: Settings, candles: seq<Candle>, more: seq<Candle>, n: nat)
    requires settings.Usable() && n <= |candles|
    ensures Trace(settings, candles + more, n) == Trace(settings, candles, n)
    ensures Trace(settings, candles, n) <= Trace(settings, candles + more, |candles + more|)
  {
    hide SignalsOf;
    if n > 0 {
      TraceIsStable(settings, candles, more, n - 1);
      assert (candles + more)[..n] == candles[..n];
    }
    TraceGrows(settings, candles + more, n, |candles + more|);
  }

  // ---- regime tags from a second replay ------------------------------------------------

  datatype TrendRegime = TrendIs(direction: Direction) | TrendUnknown

  datatype VolRegime = VolLow | VolNormal | VolHigh | VolUnknown

  datatype Bucket = Bucket(trend: TrendRegime, vol: VolRegime)

  function ClassifyTrend(trend: Option<TrendResult>): TrendRegime {
    if trend.Some? then TrendIs(trend.value.direction) else TrendUnknown
  }

  function ClassifyVol(vol: Option<real>, settings: Settings): VolRegime {
    if vol.None? then VolUnknown
    else if vol.value >= settings.highVolatilityPct then VolHigh
    else if vol.value <= settings.highVolatilityPct / 3.0 then VolLow
    else VolNormal
  }

  function TagOf(settings: Settings, h: seq<Candle>): Bucket
    requires settings.Usable() && h != []
  {
    Bucket(ClassifyTrend(TrendOf(settings, h)), ClassifyVol(SnapshotOf(settings, h).volRealized, settings))
  }

  function TagsOf(settings: Settings, candles: seq<Candle>): (r: seq<Bucket>)
    requires settings.Usable()
    ensures |r| == |candles|
  {
    seq(|candles|, i requires 0 <= i < |candles| => TagOf(settings, candles[..i + 1]))
  }

  method ComputeRegimeTags(candles: seq<Candle>, settings: Settings) returns (tags: seq<Bucket>)
    requires settings.Usable()
    ensures tags == TagsOf(settings, candles)
  {
    hide SnapshotOf, SymbolIndicators.Valid;
    var indicators := new SymbolIndicators(settings);
    tags := [];
    for i := 0 to |candles|
      invariant indicators.Valid() && fresh(indicators.Repr) && indicators.settings == settings
      invariant indicators.history == candles[..i]
      invariant tags == TagsOf(settings, candles)[..i]
    {
      var s := indicators.Update(candles[i]);
      assert candles[..i + 1] == candles[..i] + [candles[i]];
      var trend := ComputeTrend(s);
      tags := tags + [Bucket(ClassifyTrend(trend), ClassifyVol(s.volRealized, settings))];
    }
  }

  /**
   The baselines of one symbol, globally and by regime: whatever the candles, at every
   horizon the regime pools make up the global baseline as a multiset, and their
   count-weighted mean is its mean.
   */
  method RegimeBaselines(candles: seq<Candle>, settings: Settings, horizons: seq<int>, lag: nat, intervalMs: int)
    returns (pools: map<Bucket, map<int, seq<real>>>, baseline: map<int, seq<real>>)
    requires settings.Usable()
    ensures pools.Keys == set b | b in TagsOf(settings, candles)
    ensures baseline.Keys == set h | h in horizons
    ensures forall h, buckets :: h in baseline && Distinct(buckets) && (set b | b in buckets) == pools.Keys ==>
              PooledAt(pools, buckets, h) == multiset(baseline[h])
    ensures forall h, buckets :: h in baseline && baseline[h] != []
                                 && Distinct(buckets) && (set b | b in buckets) == pools.Keys ==>
              CountedMeansAt(pools, buckets, h) / |baseline[h]| as real == Sum(baseline[h]) / |baseline[h]| as real
  {
    hide TagOf, Pool, Returns, Present, PooledAt, CountedMeansAt, Sum, Distinct;
    var tags := ComputeRegimeTags(candles, settings);
    pools := RegimeConditionedBaselines(candles, tags, horizons, lag, intervalMs);
    baseline := BaselineReturns(candles, horizons, lag, intervalMs);
    forall h, buckets | h in baseline && Distinct(buckets) && (set b | b in buckets) == pools.Keys
      ensures PooledAt(pools, buckets, h) == multiset(baseline[h])
      ensures baseline[h] != [] ==>
                CountedMeansAt(pools, buckets, h) / |baseline[h]| as real == Sum(baseline[h]) / |baseline[h]| as real
    {
      PoolsMakeBaseline(candles, tags, horizons, lag, intervalMs, pools, baseline[h], buckets, h);
    }
  }

  lemma TagsAreStable(settings: Settings, candles: seq<Candle>, more: seq<Candle>)
    requires settings.Usable()
    ensures TagsOf(settings, candles) <= TagsOf(settings, candles + more)
  {
    hide TagOf;
    forall i | 0 <= i < |candles|
      ensures TagsOf(settings, candles)[i] == TagsOf(settings, candles + more)[i]
    {
      assert (candles + more)[..i + 1] == candles[..i + 1];
    }
  }

  // ---- the two replays agree ----------------------------------------------------------------

  /** A signal of this kind belongs in this bucket. */
  predicate Fits(kind: Kind, b: Bucket) {
    match kind
    case BuySignal => b.trend == TrendIs(Up)
    case SellSignal => b.trend == TrendIs(Down)
    case HighvolSignal => b.vol == VolHigh
  }

  /** Every signal of a candle fits the tag the other replay gives that candle. */
  lemma SignalsFitTag(settings: Settings, h: seq<Candle>, i: nat)
    requires settings.Usable() && h != [] && i < |SignalsOf(settings, h)|
    ensures Fits(SignalsOf(settings, h)[i].kind, TagOf(settings, h))
  {
    hide SnapshotOf, PressureConfidence, HighvolConfidence, ComputeTrend, PressureRun, HighvolRun;
  }

  /** The index of the last candle with each timestamp. */
  function TsToIdx(candles: seq<Candle>): map<int, nat> {
    if candles == [] then map[]
    else
      var n := |candles| - 1;
      TsToIdx(candles[..n])[candles[n].ts := n]
  }

  predicate DistinctTs(candles: seq<Candle>) {
    forall i, j :: 0 <= i < j < |candles| ==> candles[i].ts != candles[j].ts
  }

  lemma {:induction false} TsToIdxInverts(candles: seq<Candle>, i: nat)
    requires DistinctTs(candles) && i < |candles|
    ensures candles[i].ts in TsToIdx(candles) && TsToIdx(candles)[candles[i].ts] == i
  {
    var n := |candles| - 1;
    if i < n {
      TsToIdxInverts(candles[..n], i);
    }
  }

  lemma {:induction false} TsToIdxBounds(candles: seq<Candle>, ts: int)
    ensures ts in TsToIdx(candles) ==> TsToIdx(candles)[ts] < |candles|
  {
    if candles != [] {
      TsToIdxBounds(candles[..|candles| - 1], ts);
    }
  }

  /** The bucket a captured signal is filed under. */
  function BucketOf(candles: seq<Candle>, tags: seq<Bucket>, ts: int): Option<Bucket>
    requires |tags| == |candles|
  {
    TsToIdxBounds(candles, ts);
    if ts in TsToIdx(candles) then Some(tags[TsToIdx(candles)[ts]]) else None
  }

  /**
   Every captured buy is filed under an up trend, every sell under a down trend and
   every highvol under high volatility, although the tags come from a separate replay.
   */
  lemma {:induction false} ReplaysAgree(settings: Settings, candles: seq<Candle>, n: nat, horizons: seq<int>, lag: nat,
                                        intervalMs: int, k: nat)
    requires settings.Usable() && DistinctTs(candles) && n <= |candles|
    requires k < |Captured(settings, candles, n, horizons, lag, intervalMs)|
    ensures var e := Captured(settings, candles, n, horizons, lag, intervalMs)[k];
            var b := BucketOf(candles, TagsOf(settings, candles), e.core.ts);
            b.Some? && Fits(e.core.kind, b.value)
  {
    hide SignalsOf, TagOf, Fits, FwdMap, TsToIdx;
    var before := Captured(settings, candles, n - 1, horizons, lag, intervalMs);
    if k < |before| {
      ReplaysAgree(settings, candles, n - 1, horizons, lag, intervalMs, k);
    } else {
      SignalsFitTag(settings, candles[..n], k - |before|);
      TsToIdxInverts(candles, n - 1);
    }
  }

  // ---- filing the signals ---------------------------------------------------------------------

  datatype Cluster = Isolated | Clustered

  predicate ClusteredAt(signals: seq<Entry>, windowMs: int, i: nat)
    requires i < |signals|
  {
    exists j :: 0 <= j < i && signals[j].core.kind == signals[i].core.kind
                && 0 < signals[i].core.ts - signals[j].core.ts <= windowMs
  }

  /** A signal of the same type exactly the window earlier clusters; one at the same time, or any earlier, does not. */
  lemma ClusterEdges(first: Entry, windowMs: int, second: Entry)
    requires windowMs > 0 && second.core.kind == first.core.kind
    ensures ClusteredAt([first, second.(core := second.core.(ts := first.core.ts + windowMs))], windowMs, 1)
    ensures !ClusteredAt([first, second.(core := second.core.(ts := first.core.ts))], windowMs, 1)
    ensures !ClusteredAt([first, second.(core := second.core.(ts := first.core.ts + windowMs + 1))], windowMs, 1)
  {
    var late := second.(core := second.core.(ts := first.core.ts + windowMs));
    var signals := [first, late];
    assert signals[0].core.kind == signals[1].core.kind;
  }

  method ComputeClusterTags(signals: seq<Entry>, windowCandles: int, intervalMs: int) returns (tags: seq<Cluster>)
    ensures |tags| == |signals|
    ensures forall i :: 0 <= i < |signals| ==>
              (tags[i] == Clustered <==> ClusteredAt(signals, windowCandles * intervalMs, i))
  {
    var windowMs := windowCandles * intervalMs;
    tags := [];
    for i := 0 to |signals|
      invariant |tags| == i
      invariant forall k :: 0 <= k < i ==> (tags[k] == Clustered <==> ClusteredAt(signals, windowMs, k))
    {
      var clustered := false;
      for j := 0 to i
        invariant !clustered
        invariant forall k :: 0 <= k < j ==>
                    !(signals[k].core.kind == signals[i].core.kind
                      && 0 < signals[i].core.ts - signals[k].core.ts <= windowMs)
      {
        if signals[j].core.kind != signals[i].core.kind {
          continue;
        }
        if 0 < signals[i].core.ts - signals[j].core.ts <= windowMs {
          clustered := true;
          break;
        }
      }
      tags := tags + [if clustered then Clustered else Isolated];
    }
  }

  /** The signals filed under a bucket and kind, in order, each with its cluster tag. */
  function Filed(signals: seq<Entry>, clusters: seq<Cluster>, candles: seq<Candle>, tags: seq<Bucket>, b: Bucket, kind: Kind)
    : seq<(Entry, Cluster)>
    requires |signals| == |clusters| && |tags| == |candles|
  {
    if signals == [] then []
    else
      var n := |signals| - 1;
      Filed(signals[..n], clusters[..n], candles, tags, b, kind)
      + if BucketOf(candles, tags, signals[n].core.ts) == Some(b) && signals[n].core.kind == kind
        then [(signals[n], clusters[n])] else []
  }

  method FileSignals(signals: seq<Entry>, clusters: seq<Cluster>, candles: seq<Candle>, tags: seq<Bucket>)
    returns (byBucket: map<Bucket, map<Kind, seq<(Entry, Cluster)>>>)
    requires |signals| == |clusters| && |tags| == |candles|
    ensures forall b, k :: (if b in byBucket then GetOr(byBucket[b], k, []) else [])
                        == Filed(signals, clusters, candles, tags, b, k)
    ensures forall b :: b in byBucket ==> forall k :: k in byBucket[b] ==> byBucket[b][k] != []
  {
    hide TsToIdx;
    byBucket := map[];
    for i := 0 to |signals|
      invariant forall b, k :: (if b in byBucket then GetOr(byBucket[b], k, []) else [])
                            == Filed(signals[..i], clusters[..i], candles, tags, b, k)
      invariant forall b :: b in byBucket ==> forall k :: k in byBucket[b] ==> byBucket[b][k] != []
    {
      assert signals[..i + 1][..i] == signals[..i] && clusters[..i + 1][..i] == clusters[..i];
      var bucket := BucketOf(candles, tags, signals[i].core.ts);
      if bucket.None? {
        continue;
      }
      var b, kind := bucket.value, signals[i].core.kind;
      var byKind := GetOr(byBucket, b, map[]);
      byBucket := byBucket[b := byKind[kind := GetOr(byKind, kind, []) + [(signals[i], clusters[i])]]];
    }
    assert signals[..|signals|] == signals && clusters[..|signals|] == clusters;
  }

  lemma {:induction false} FiledContents(signals: seq<Entry>, clusters: seq<Cluster>, candles: seq<Candle>,
                                         tags: seq<Bucket>, b: Bucket, kind: Kind, e: Entry, c: Cluster)
    requires |signals| == |clusters| && |tags| == |candles|
    ensures (e, c) in Filed(signals, clusters, candles, tags, b, kind)
       <==> e.core.kind == kind && BucketOf(candles, tags, e.core.ts) == Some(b)
            && exists k :: 0 <= k < |signals| && signals[k] == e && clusters[k] == c
  {
    hide TsToIdx;
    if signals != [] {
      var n := |signals| - 1;
      FiledContents(signals[..n], clusters[..n], candles, tags, b, kind, e, c);
      assert forall k :: 0 <= k < n ==> signals[..n][k] == signals[k] && clusters[..n][k] == clusters[k];
    }
  }

  /** No captured signal is dropped when filing, and none lands in a bucket that contradicts it. */
  lemma CapturedSignalsAreFiled(settings: Settings, candles: seq<Candle>, horizons: seq<int>, lag: nat, intervalMs: int,
                                clusters: seq<Cluster>, k: nat)
    requires settings.Usable() && DistinctTs(candles)
    requires |clusters| == |Captured(settings, candles, |candles|, horizons, lag, intervalMs)| > k
    ensures var signals := Captured(settings, candles, |candles|, horizons, lag, intervalMs);
            var e, tags := signals[k], TagsOf(settings, candles);
            exists b :: Fits(e.core.kind, b)
                        && (e, clusters[k]) in Filed(signals, clusters, candles, tags, b, e.core.kind)
  {
    hide Captured, Fits, Filed, TsToIdx;
    var signals := Captured(settings, candles, |candles|, horizons, lag, intervalMs);
    var e, tags := signals[k], TagsOf(settings, candles);
    ReplaysAgree(settings, candles, |candles|, horizons, lag, intervalMs, k);
    var b := BucketOf(candles, tags, e.core.ts).value;
    FiledContents(signals, clusters, candles, tags, b, e.core.kind, e, clusters[k]);
  }
}
