/**
 Time-based forward returns, the buy-every-candle baseline, and the baselines split by
 regime. The scans and loops are proved against one pointwise definition.
 */
module ForwardReturns {
  import opened Numbers
  import opened Collections
  import opened Market

  // ---- one forward return ---------------------------------------------------------

  /** The first index from `from` on whose candle is at or after time `t`. */
  function FirstAtOrAfter(candles: seq<Candle>, from: nat, t: int): (i: nat)
    requires from <= |candles|
    ensures from <= i <= |candles|
    ensures forall j :: from <= j < i ==> candles[j].ts < t
    ensures i < |candles| ==> candles[i].ts >= t
    decreases |candles| - from
  {
    if from < |candles| && candles[from].ts < t then FirstAtOrAfter(candles, from + 1, t) else from
  }

  function TargetIndex(candles: seq<Candle>, entry: nat, h: int, intervalMs: int): nat
    requires entry < |candles|
  {
    FirstAtOrAfter(candles, entry, candles[entry].ts + h * intervalMs)
  }

  function ForwardReturn(candles: seq<Candle>, idx: nat, h: int, lag: nat, intervalMs: int): Option<real> {
    var entry := idx + lag;
    if entry >= |candles| then None
    else
      var target := TargetIndex(candles, entry, h, intervalMs);
      if target >= |candles| || candles[entry].close == 0.0 then None
      else Some(candles[target].close / candles[entry].close - 1.0)
  }

  /** The per-horizon scan: each horizon is looked up once, in order. */
  method ForwardReturnsAt(candles: seq<Candle>, idx: nat, horizons: seq<int>, lag: nat, intervalMs: int)
    returns (out: map<int, Option<real>>)
    ensures out.Keys == set h | h in horizons
    ensures forall h :: h in out ==> out[h] == ForwardReturn(candles, idx, h, lag, intervalMs)
  {
    var entry := idx + lag;
    if entry >= |candles| {
      return map h | h in horizons :: None;
    }
    var entryClose, entryTs := candles[entry].close, candles[entry].ts;
    out := map[];
    for k := 0 to |horizons|
      invariant out.Keys == set h | h in horizons[..k]
      invariant forall h :: h in out ==> out[h] == ForwardReturn(candles, idx, h, lag, intervalMs)
    {
      var h := horizons[k];
      var targetTime := entryTs + h * intervalMs;
      var target := entry;
      while target < |candles| && candles[target].ts < targetTime
        invariant entry <= target <= |candles|
        invariant FirstAtOrAfter(candles, entry, targetTime) == FirstAtOrAfter(candles, target, targetTime)
      {
        target := target + 1;
      }
      if target >= |candles| || entryClose == 0.0 {
        out := out[h := None];
      } else {
        out := out[h := Some(candles[target].close / entryClose - 1.0)];
      }
      assert horizons[..k + 1] == horizons[..k] + [h];
    }
    assert horizons[..|horizons|] == horizons;
  }

  predicate AscendingTs(candles: seq<Candle>) {
    forall i, j :: 0 <= i < j < |candles| ==> candles[i].ts < candles[j].ts
  }

  /** On ascending timestamps the target is the first candle of the whole series at or after entry + h. */
  lemma TargetIsFirst(candles: seq<Candle>, entry: nat, h: nat, intervalMs: nat, j: nat)
    requires entry < |candles| && AscendingTs(candles) && j < |candles|
    ensures j < TargetIndex(candles, entry, h, intervalMs)
       <==> candles[j].ts < candles[entry].ts + h * intervalMs
  {
    assert h * intervalMs >= 0;
    var i := TargetIndex(candles, entry, h, intervalMs);
    if i < j {
      assert candles[i].ts < candles[j].ts;
    }
  }

  lemma TimesMonotone(x: int, y: int, c: nat)
    requires x <= y
    ensures x * c <= y * c
  {
  }

  /** A longer horizon never looks at an earlier candle. */
  lemma TargetMonotone(candles: seq<Candle>, entry: nat, h: int, h': int, intervalMs: nat)
    requires entry < |candles| && h <= h'
    ensures TargetIndex(candles, entry, h, intervalMs) <= TargetIndex(candles, entry, h', intervalMs)
  {
    TimesMonotone(h, h', intervalMs);
  }

  predicate GapFree(candles: seq<Candle>, intervalMs: int) {
    forall i, j :: 0 <= i <= j < |candles| ==> candles[j].ts == candles[i].ts + (j - i) * intervalMs
  }

  lemma GapFreeTime(candles: seq<Candle>, entry: nat, i: nat, h: int, intervalMs: nat)
    requires entry <= i < |candles| && 0 < intervalMs && GapFree(candles, intervalMs)
    ensures candles[i].ts >= candles[entry].ts + h * intervalMs <==> i - entry >= h
  {
    TimesMonotone(if i - entry >= h then h else i - entry + 1, if i - entry >= h then i - entry else h, intervalMs);
    assert candles[i].ts == candles[entry].ts + (i - entry) * intervalMs;
    assert (i - entry + 1) * intervalMs == (i - entry) * intervalMs + intervalMs;
  }

  /** Without gaps "h intervals later" is "h candles later". */
  lemma GapFreeTarget(candles: seq<Candle>, entry: nat, h: nat, intervalMs: int)
    requires entry < |candles| && 0 < intervalMs && GapFree(candles, intervalMs)
    ensures TargetIndex(candles, entry, h, intervalMs) == if entry + h < |candles| then entry + h else |candles|
  {
    hide GapFree;
    var i := TargetIndex(candles, entry, h, intervalMs);
    if i < |candles| {
      GapFreeTime(candles, entry, i, h, intervalMs);
    }
    if entry + h < |candles| {
      GapFreeTime(candles, entry, entry + h, h, intervalMs);
    }
  }

  lemma {:induction false} ScanShifted(candles: seq<Candle>, cut: nat, from: nat, t: int)
    requires cut <= from <= |candles|
    ensures FirstAtOrAfter(candles, from, t) == cut + FirstAtOrAfter(candles[cut..], from - cut, t)
    decreases |candles| - from
  {
    if from < |candles| && candles[from].ts < t {
      ScanShifted(candles, cut, from + 1, t);
    }
  }

  /** A forward return reads nothing before its entry candle. */
  lemma ReadsFromEntryOnly(candles: seq<Candle>, idx: nat, h: int, lag: nat, intervalMs: int)
    requires idx + lag <= |candles|
    ensures ForwardReturn(candles, idx, h, lag, intervalMs)
         == ForwardReturn(candles[idx + lag..], 0, h, 0, intervalMs)
  {
    if idx + lag < |candles| {
      ScanShifted(candles, idx + lag, idx + lag, candles[idx + lag].ts + h * intervalMs);
    }
  }

  // ---- what a forward return is -------------------------------------------------------------

  lemma GrowthOf(entryClose: real, targetClose: real)
    requires entryClose != 0.0
    ensures entryClose * (1.0 + (targetClose / entryClose - 1.0)) == targetClose
  {
  }

  /** A forward return is the growth of an investment from the entry's close to the target's. */
  lemma ReturnIsGrowth(candles: seq<Candle>, idx: nat, h: int, lag: nat, intervalMs: int)
    requires ForwardReturn(candles, idx, h, lag, intervalMs).Some?
    ensures idx + lag < |candles| && TargetIndex(candles, idx + lag, h, intervalMs) < |candles|
    ensures var entry, target := candles[idx + lag], candles[TargetIndex(candles, idx + lag, h, intervalMs)];
            entry.close * (1.0 + ForwardReturn(candles, idx, h, lag, intervalMs).value) == target.close
  {
    GrowthOf(candles[idx + lag].close, candles[TargetIndex(candles, idx + lag, h, intervalMs)].close);
  }

  lemma GrowthSign(entryClose: real, targetClose: real, r: real)
    requires entryClose > 0.0 && entryClose * (1.0 + r) == targetClose
    ensures r > 0.0 <==> targetClose > entryClose
    ensures r == 0.0 <==> targetClose == entryClose
  {
    if r >= 0.0 {
      MulNonnegative(entryClose, r);
    } else {
      MulNonnegative(entryClose, -r);
    }
    assert targetClose - entryClose == entryClose * r;
  }

  lemma ReturnSign(candles: seq<Candle>, idx: nat, h: int, lag: nat, intervalMs: int)
    requires idx + lag < |candles| && candles[idx + lag].close > 0.0
    requires ForwardReturn(candles, idx, h, lag, intervalMs).Some?
    ensures var entry, target := candles[idx + lag], candles[TargetIndex(candles, idx + lag, h, intervalMs)];
            var r := ForwardReturn(candles, idx, h, lag, intervalMs).value;
            && (r > 0.0 <==> target.close > entry.close)
            && (r == 0.0 <==> target.close == entry.close)
  {
    hide ForwardReturn;
    ReturnIsGrowth(candles, idx, h, lag, intervalMs);
    GrowthSign(candles[idx + lag].close, candles[TargetIndex(candles, idx + lag, h, intervalMs)].close,
               ForwardReturn(candles, idx, h, lag, intervalMs).value);
  }

  /** A return is missing exactly when the entry or the target lies past the end, or the entry's close is zero. */
  lemma ReturnPresentIff(candles: seq<Candle>, idx: nat, h: nat, lag: nat, intervalMs: int)
    requires 0 < intervalMs && GapFree(candles, intervalMs)
    ensures ForwardReturn(candles, idx, h, lag, intervalMs).Some?
       <==> idx + lag + h < |candles| && candles[idx + lag].close != 0.0
  {
    if idx + lag < |candles| {
      GapFreeTarget(candles, idx + lag, h, intervalMs);
    }
  }

  lemma GrowthCompounds(a: real, b: real, c: real, r: real, s: real, t: real)
    requires a != 0.0 && a * (1.0 + r) == b && b * (1.0 + s) == c && a * (1.0 + t) == c
    ensures (1.0 + r) * (1.0 + s) == 1.0 + t
  {
    var x, y, z := 1.0 + r, 1.0 + s, 1.0 + t;
    assert a * (x * y) == (a * x) * y == a * z;
    assert a * (x * y) / a == x * y && a * z / a == z;
  }

  /** Without gaps, a present return leads from the entry's close to the close `h` candles later. */
  lemma GapFreeGrowth(candles: seq<Candle>, idx: nat, h: nat, lag: nat, intervalMs: int)
    requires 0 < intervalMs && GapFree(candles, intervalMs)
    requires ForwardReturn(candles, idx, h, lag, intervalMs).Some?
    ensures idx + lag + h < |candles| && candles[idx + lag].close != 0.0
    ensures candles[idx + lag].close * (1.0 + ForwardReturn(candles, idx, h, lag, intervalMs).value)
         == candles[idx + lag + h].close
  {
    hide ForwardReturn, GapFree;
    ReturnPresentIff(candles, idx, h, lag, intervalMs);
    GapFreeTarget(candles, idx + lag, h, intervalMs);
    ReturnIsGrowth(candles, idx, h, lag, intervalMs);
  }

  /** Without gaps, returns over adjacent horizons compound to the return over both. */
  lemma ReturnsCompound(candles: seq<Candle>, idx: nat, h: nat, k: nat, lag: nat, intervalMs: int)
    requires 0 < intervalMs && GapFree(candles, intervalMs)
    requires ForwardReturn(candles, idx, h, lag, intervalMs).Some?
    requires ForwardReturn(candles, idx + h, k, lag, intervalMs).Some?
    ensures ForwardReturn(candles, idx, h + k, lag, intervalMs).Some?
    ensures (1.0 + ForwardReturn(candles, idx, h, lag, intervalMs).value)
            * (1.0 + ForwardReturn(candles, idx + h, k, lag, intervalMs).value)
         == 1.0 + ForwardReturn(candles, idx, h + k, lag, intervalMs).value
  {
    hide ForwardReturn, GapFree;
    var i := idx + lag;
    GapFreeGrowth(candles, idx, h, lag, intervalMs);
    GapFreeGrowth(candles, idx + h, k, lag, intervalMs);
    ReturnPresentIff(candles, idx, h + k, lag, intervalMs);
    GapFreeGrowth(candles, idx, h + k, lag, intervalMs);
    GrowthCompounds(candles[i].close, candles[i + h].close, candles[i + h + k].close,
                    ForwardReturn(candles, idx, h, lag, intervalMs).value,
                    ForwardReturn(candles, idx + h, k, lag, intervalMs).value,
                    ForwardReturn(candles, idx, h + k, lag, intervalMs).value);
  }

  // ---- pools ---------------------------------------------------------------------------

  function Present(vs: seq<Option<real>>): seq<real> {
    if vs == [] then []
    else
      var last := vs[|vs| - 1];
      Present(vs[..|vs| - 1]) + AsSeq(last)
  }

  /** The values whose tag is `b`, in order. */
  function Pool<B(==)>(vs: seq<Option<real>>, tags: seq<B>, b: B): seq<real>
    requires |vs| == |tags|
  {
    if vs == [] then []
    else
      var n := |vs| - 1;
      Pool(vs[..n], tags[..n], b) + if tags[n] == b then AsSeq(vs[n]) else []
  }

  /** The forward returns of the first `n` candles at one horizon. */
  function Returns(candles: seq<Candle>, n: nat, h: int, lag: nat, intervalMs: int): (r: seq<Option<real>>)
    ensures |r| == n
  {
    seq(n, i requires 0 <= i < n => ForwardReturn(candles, i, h, lag, intervalMs))
  }

  lemma SomeHorizon(hs: set<int>)
    requires hs != {}
    ensures exists h :: h in hs
  {
    assert (forall h :: h !in hs) ==> hs == {};
  }

  /** Add the present values of one candle to the pool of every horizon. */
  method AppendPresent(pools: map<int, seq<real>>, fwd: map<int, Option<real>>) returns (out: map<int, seq<real>>)
    requires pools.Keys == fwd.Keys
    ensures out.Keys == pools.Keys
    ensures forall h :: h in out ==> out[h] == pools[h] + AsSeq(fwd[h])
  {
    out := pools;
    var todo := fwd.Keys;
    while todo != {}
      invariant out.Keys == pools.Keys && todo <= fwd.Keys
      invariant forall h :: h in out ==> out[h] == if h in todo then pools[h] else pools[h] + AsSeq(fwd[h])
      decreases todo
    {
      SomeHorizon(todo);
      var h :| h in todo;
      if fwd[h].Some? {
        out := out[h := out[h] + [fwd[h].value]];
      }
      todo := todo - {h};
    }
  }

  method BaselineReturns(candles: seq<Candle>, horizons: seq<int>, lag: nat, intervalMs: int)
    returns (out: map<int, seq<real>>)
    ensures out.Keys == set h | h in horizons
    ensures forall h :: h in out ==> out[h] == Present(Returns(candles, |candles|, h, lag, intervalMs))
  {
    out := map h | h in horizons :: [];
    for idx := 0 to |candles|
      invariant out.Keys == set h | h in horizons
      invariant forall h :: h in out ==> out[h] == Present(Returns(candles, idx, h, lag, intervalMs))
    {
      var fwd := ForwardReturnsAt(candles, idx, horizons, lag, intervalMs);
      out := AppendPresent(out, fwd);
      forall h | h in out
        ensures Returns(candles, idx + 1, h, lag, intervalMs)[..idx] == Returns(candles, idx, h, lag, intervalMs)
      {
      }
    }
  }

  /** Every bucket seen so far holds exactly its own returns, per horizon. */
  ghost predicate PoolsFor<B>(pools: map<B, map<int, seq<real>>>, candles: seq<Candle>, tags: seq<B>, horizons: seq<int>,
                              lag: nat, intervalMs: int)
  {
    && pools.Keys == (set b | b in tags)
    && (forall b :: b in pools ==> pools[b].Keys == set h | h in horizons)
    && (forall b, h :: b in pools && h in pools[b] ==>
          pools[b][h] == Pool(Returns(candles, |tags|, h, lag, intervalMs), tags, b))
  }

  lemma ReturnsStep(candles: seq<Candle>, n: nat, h: int, lag: nat, intervalMs: int)
    ensures Returns(candles, n + 1, h, lag, intervalMs)
         == Returns(candles, n, h, lag, intervalMs) + [ForwardReturn(candles, n, h, lag, intervalMs)]
    ensures |Returns(candles, n, h, lag, intervalMs)| == n
  {
    hide ForwardReturn;
  }

  lemma PoolStep<B>(vs: seq<Option<real>>, v: Option<real>, tags: seq<B>, t: B, b: B)
    requires |vs| == |tags|
    ensures Pool(vs + [v], tags + [t], b) == Pool(vs, tags, b) + if t == b then AsSeq(v) else []
  {
    assert (vs + [v])[..|vs|] == vs && (tags + [t])[..|tags|] == tags;
  }

  lemma {:induction false} UnseenPoolEmpty<B>(vs: seq<Option<real>>, tags: seq<B>, b: B)
    requires |vs| == |tags| && b !in tags
    ensures Pool(vs, tags, b) == []
  {
    if vs != [] {
      UnseenPoolEmpty(vs[..|vs| - 1], tags[..|vs| - 1], b);
    }
  }

  lemma PoolsForStep<B>(pools: map<B, map<int, seq<real>>>, candles: seq<Candle>, tags: seq<B>, horizons: seq<int>,
                        lag: nat, intervalMs: int, bucket: B, grown: map<int, seq<real>>)
    requires PoolsFor(pools, candles, tags, horizons, lag, intervalMs)
    requires grown.Keys == set h | h in horizons
    requires forall h :: h in grown ==>
               grown[h] == (if bucket in pools then pools[bucket][h] else [])
                         + AsSeq(ForwardReturn(candles, |tags|, h, lag, intervalMs))
    ensures PoolsFor(pools[bucket := grown], candles, tags + [bucket], horizons, lag, intervalMs)
  {
    hide Pool, Returns, ForwardReturn;
    var after := pools[bucket := grown];
    forall b, h | b in after && h in after[b]
      ensures after[b][h] == Pool(Returns(candles, |tags| + 1, h, lag, intervalMs), tags + [bucket], b)
    {
      ReturnsStep(candles, |tags|, h, lag, intervalMs);
      var vs, v := Returns(candles, |tags|, h, lag, intervalMs), ForwardReturn(candles, |tags|, h, lag, intervalMs);
      PoolStep(vs, v, tags, bucket, b);
      if b == bucket && bucket !in pools {
        UnseenPoolEmpty(vs, tags, bucket);
      }
    }
  }

  method RegimeConditionedBaselines<B(==)>(candles: seq<Candle>, tags: seq<B>, horizons: seq<int>, lag: nat,
                                           intervalMs: int)
    returns (pools: map<B, map<int, seq<real>>>)
    ensures pools.Keys == set b | b in tags
    ensures forall b :: b in pools ==> pools[b].Keys == set h | h in horizons
    ensures forall b, h :: b in pools && h in pools[b] ==>
              pools[b][h] == Pool(Returns(candles, |tags|, h, lag, intervalMs), tags, b)
  {
    hide Pool, Returns, ForwardReturn;
    pools := map[];
    for idx := 0 to |tags|
      invariant PoolsFor(pools, candles, tags[..idx], horizons, lag, intervalMs)
    {
      var bucket := tags[idx];
      var fwd := ForwardReturnsAt(candles, idx, horizons, lag, intervalMs);
      var pool: map<int, seq<real>> := if bucket in pools then pools[bucket] else map h | h in horizons :: [];
      var grown := AppendPresent(pool, fwd);
      PoolsForStep(pools, candles, tags[..idx], horizons, lag, intervalMs, bucket, grown);
      pools := pools[bucket := grown];
      assert tags[..idx + 1] == tags[..idx] + [bucket];
    }
    assert tags[..|tags|] == tags;
  }

  // ---- the pools partition the baseline ------------------------------------------------------

  function PoolUnion<B(==)>(vs: seq<Option<real>>, tags: seq<B>, buckets: seq<B>): multiset<real>
    requires |vs| == |tags|
  {
    if buckets == [] then multiset{}
    else PoolUnion(vs, tags, buckets[..|buckets| - 1]) + multiset(Pool(vs, tags, buckets[|buckets| - 1]))
  }

  function PoolSums<B(==)>(vs: seq<Option<real>>, tags: seq<B>, buckets: seq<B>): real
    requires |vs| == |tags|
  {
    if buckets == [] then 0.0
    else PoolSums(vs, tags, buckets[..|buckets| - 1]) + Sum(Pool(vs, tags, buckets[|buckets| - 1]))
  }

  lemma SumEmpty()
    ensures Sum([]) == 0.0
  {
  }

  /** One more tagged value lands in exactly the pool of its tag. */
  lemma {:induction false} PoolsStep<B>(vs: seq<Option<real>>, v: Option<real>, tags: seq<B>, t: B, buckets: seq<B>)
    requires |vs| == |tags| && Distinct(buckets)
    ensures var hit := if t in buckets then AsSeq(v) else [];
            && PoolUnion(vs + [v], tags + [t], buckets) == PoolUnion(vs, tags, buckets) + multiset(hit)
            && PoolSums(vs + [v], tags + [t], buckets) == PoolSums(vs, tags, buckets) + Sum(hit)
  {
    hide Pool, Sum;
    if buckets != [] {
      var front, b := buckets[..|buckets| - 1], buckets[|buckets| - 1];
      PoolsStep(vs, v, tags, t, front);
      assert buckets == front + [b];
      PoolStep(vs, v, tags, t, b);
      SumConcat(Pool(vs, tags, b), if t == b then AsSeq(v) else []);
    }
    SumEmpty();
  }

  lemma {:induction false} EmptyPools<B>(vs: seq<Option<real>>, tags: seq<B>, buckets: seq<B>)
    requires vs == [] && tags == []
    ensures PoolUnion(vs, tags, buckets) == multiset{} && PoolSums(vs, tags, buckets) == 0.0
  {
    if buckets != [] {
      EmptyPools(vs, tags, buckets[..|buckets| - 1]);
    }
  }

  lemma NonePresent(vs: seq<Option<real>>)
    requires vs == []
    ensures Present(vs) == []
  {
  }

  lemma OneMorePresent(vs: seq<Option<real>>)
    requires vs != []
    ensures Present(vs) == Present(vs[..|vs| - 1]) + AsSeq(vs[|vs| - 1])
  {
  }

  /**
   For any list of distinct buckets that covers the tags, the bucket pools together are
   exactly the global baseline, as a multiset and in total.
   */
  lemma {:induction false} PoolsPartitionBaseline<B>(vs: seq<Option<real>>, tags: seq<B>, buckets: seq<B>)
    requires |vs| == |tags| && Distinct(buckets) && forall t :: t in tags ==> t in buckets
    ensures PoolUnion(vs, tags, buckets) == multiset(Present(vs))
    ensures PoolSums(vs, tags, buckets) == Sum(Present(vs))
  {
    hide Sum, Pool, PoolUnion, PoolSums, Present, AsSeq, Distinct;
    if vs == [] {
      NonePresent(vs);
      SumEmpty();
      EmptyPools(vs, tags, buckets);
    } else {
      var n := |vs| - 1;
      assert tags[n] in tags;
      PoolsPartitionBaseline(vs[..n], tags[..n], buckets);
      PoolsStep(vs[..n], vs[n], tags[..n], tags[n], buckets);
      assert vs == vs[..n] + [vs[n]] && tags == tags[..n] + [tags[n]];
      OneMorePresent(vs);
      SumConcat(Present(vs[..n]), AsSeq(vs[n]));
    }
  }

  /** Count times mean over the buckets, an empty bucket contributing nothing. */
  function WeightedMeans<B(==)>(vs: seq<Option<real>>, tags: seq<B>, buckets: seq<B>): real
    requires |vs| == |tags|
  {
    if buckets == [] then 0.0
    else
      var pool := Pool(vs, tags, buckets[|buckets| - 1]);
      WeightedMeans(vs, tags, buckets[..|buckets| - 1])
      + if pool == [] then 0.0 else |pool| as real * (Sum(pool) / |pool| as real)
  }

  lemma {:induction false} WeightedMeansAreSums<B>(vs: seq<Option<real>>, tags: seq<B>, buckets: seq<B>)
    requires |vs| == |tags|
    ensures WeightedMeans(vs, tags, buckets) == PoolSums(vs, tags, buckets)
  {
    if buckets != [] {
      WeightedMeansAreSums(vs, tags, buckets[..|buckets| - 1]);
      var pool := Pool(vs, tags, buckets[|buckets| - 1]);
      if pool != [] {
        DivMonotone(Sum(pool), Sum(pool), |pool| as real);
        assert Sum(pool) / |pool| as real * |pool| as real == |pool| as real * (Sum(pool) / |pool| as real);
      }
    }
  }

  /** The count-weighted mean of the bucket baselines is the symbol's global baseline. */
  lemma WeightedBucketsMatchBaseline<B>(vs: seq<Option<real>>, tags: seq<B>, buckets: seq<B>)
    requires |vs| == |tags| && Distinct(buckets) && forall t :: t in tags ==> t in buckets
    requires Present(vs) != []
    ensures |PoolUnion(vs, tags, buckets)| == |Present(vs)|
    ensures WeightedMeans(vs, tags, buckets) / |PoolUnion(vs, tags, buckets)| as real
         == Sum(Present(vs)) / |Present(vs)| as real
  {
    WeightedMeansAreSums(vs, tags, buckets);
    PoolsPartitionBaseline(vs, tags, buckets);
  }

  // ---- what the two functions return -------------------------------------------------------

  function PoolAt<B(==)>(pools: map<B, map<int, seq<real>>>, b: B, h: int): seq<real> {
    if b in pools then GetOr(pools[b], h, []) else []
  }

  /** All returns the listed buckets hold at a horizon. */
  function PooledAt<B(==)>(pools: map<B, map<int, seq<real>>>, buckets: seq<B>, h: int): multiset<real> {
    if buckets == [] then multiset{}
    else PooledAt(pools, buckets[..|buckets| - 1], h) + multiset(PoolAt(pools, buckets[|buckets| - 1], h))
  }

  /** Count times mean over the listed buckets at a horizon, an empty one contributing nothing. */
  function CountedMeansAt<B(==)>(pools: map<B, map<int, seq<real>>>, buckets: seq<B>, h: int): real {
    if buckets == [] then 0.0
    else
      var pool := PoolAt(pools, buckets[|buckets| - 1], h);
      CountedMeansAt(pools, buckets[..|buckets| - 1], h)
      + if pool == [] then 0.0 else |pool| as real * (Sum(pool) / |pool| as real)
  }

  lemma {:induction false} PooledAtIsUnion<B>(pools: map<B, map<int, seq<real>>>, vs: seq<Option<real>>, tags: seq<B>,
                                              buckets: seq<B>, h: int)
    requires |vs| == |tags| && forall b :: b in buckets ==> PoolAt(pools, b, h) == Pool(vs, tags, b)
    ensures PooledAt(pools, buckets, h) == PoolUnion(vs, tags, buckets)
    ensures CountedMeansAt(pools, buckets, h) == WeightedMeans(vs, tags, buckets)
  {
    hide PoolAt, Pool, Sum;
    if buckets != [] {
      assert PoolAt(pools, buckets[|buckets| - 1], h) == Pool(vs, tags, buckets[|buckets| - 1]);
      PooledAtIsUnion(pools, vs, tags, buckets[..|buckets| - 1], h);
    }
  }

  /** At each horizon the returned pools make up the returned baseline, and their weighted mean is its mean. */
  lemma PoolsMakeBaseline<B>(candles: seq<Candle>, tags: seq<B>, horizons: seq<int>, lag: nat, intervalMs: int,
                             pools: map<B, map<int, seq<real>>>, baseline: seq<real>, buckets: seq<B>, h: int)
    requires |tags| == |candles| && PoolsFor(pools, candles, tags, horizons, lag, intervalMs) && h in horizons
    requires baseline == Present(Returns(candles, |candles|, h, lag, intervalMs))
    requires Distinct(buckets) && (set b | b in buckets) == pools.Keys
    ensures PooledAt(pools, buckets, h) == multiset(baseline)
    ensures baseline != [] ==> CountedMeansAt(pools, buckets, h) / |baseline| as real == Sum(baseline) / |baseline| as real
  {
    hide Pool, Returns, Present, PoolUnion, WeightedMeans, PooledAt, CountedMeansAt, Sum;
    var vs := Returns(candles, |candles|, h, lag, intervalMs);
    assert |vs| == |tags| by {
      ReturnsStep(candles, |candles|, h, lag, intervalMs);
    }
    assert forall b :: b in tags ==> b in pools.Keys;
    assert forall b :: b in buckets ==> b in pools && h in pools[b].Keys;
    PooledAtIsUnion(pools, vs, tags, buckets, h);
    PoolsPartitionBaseline(vs, tags, buckets);
    if baseline != [] {
      WeightedBucketsMatchBaseline(vs, tags, buckets);
    }
  }
}
