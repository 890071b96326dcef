/** The composite volume score, the global ranking and the alt-only ranking. */
module Ranking {
  import opened Numbers
  import opened Sorting

  const ACTIVITY_SATURATION := 100000.0
  const VOLATILITY_SATURATION := 100.0

  datatype TickerStats = TickerStats(pair: string, lastPrice: real, quoteVolume: real, priceChangePct: real, count: int)

  function ComputeScore(stats: TickerStats): real {
    var activityFactor := 1.0 + Min(stats.count as real / ACTIVITY_SATURATION, 1.0) * 0.1;
    var volatilityFactor := 1.0 + Min(Abs(stats.priceChangePct) / VOLATILITY_SATURATION, 0.5);
    stats.quoteVolume * activityFactor * volatilityFactor
  }

  /** Descending by score, ties in their original order. */
  function RankByScore(stats: seq<TickerStats>): seq<TickerStats> {
    SortBy(stats, s => -ComputeScore(s))
  }

  /** Position in a ranking, counted from 1; a later duplicate would win. */
  function RankMap(ranked: seq<TickerStats>): map<string, nat> {
    if ranked == [] then map[]
    else RankMap(ranked[..|ranked| - 1])[ranked[|ranked| - 1].pair := |ranked|]
  }

  /** `xs[:n]`, a negative `n` counting from the end. */
  function TakeFirst<T>(xs: seq<T>, n: int): seq<T> {
    if n >= |xs| then xs
    else if n >= 0 then xs[..n]
    else if -n >= |xs| then []
    else xs[..|xs| + n]
  }

  predicate DistinctPairs(stats: seq<TickerStats>) {
    forall i, j :: 0 <= i < j < |stats| ==> stats[i].pair != stats[j].pair
  }

  lemma {:induction false} RankMapInverts(ranked: seq<TickerStats>, i: nat)
    requires DistinctPairs(ranked) && i < |ranked|
    ensures ranked[i].pair in RankMap(ranked) && RankMap(ranked)[ranked[i].pair] == i + 1
  {
    if i < |ranked| - 1 {
      RankMapInverts(ranked[..|ranked| - 1], i);
    }
  }

  lemma {:induction false} RankMapDomain(ranked: seq<TickerStats>, p: string)
    ensures p in RankMap(ranked) <==> exists i :: 0 <= i < |ranked| && ranked[i].pair == p
  {
    if ranked != [] {
      RankMapDomain(ranked[..|ranked| - 1], p);
    }
  }

  /** Filtering keeps the order: earlier kept items sit at earlier positions. */
  lemma {:induction false} FilterPositions<T>(xs: seq<T>, p: T -> bool, i: nat, j: nat) returns (a: nat, b: nat)
    requires i < j < |Filter(xs, p)|
    ensures a < b < |xs| && xs[a] == Filter(xs, p)[i] && xs[b] == Filter(xs, p)[j]
  {
    var front, last := xs[..|xs| - 1], xs[|xs| - 1];
    if j < |Filter(front, p)| {
      a, b := FilterPositions(front, p, i, j);
    } else {
      FilterContents(front, p, Filter(xs, p)[i]);
      a :| 0 <= a < |front| && front[a] == Filter(xs, p)[i];
      b := |xs| - 1;
    }
  }

  lemma SplitTwo(xs: seq<TickerStats>, i: nat, j: nat)
    requires i < j < |xs|
    ensures xs[i] == xs[j] ==> multiset(xs)[xs[i]] >= 2
  {
    assert xs == xs[..i] + [xs[i]] + xs[i + 1..j] + [xs[j]] + xs[j + 1..];
  }

  lemma {:induction false} DistinctMultiplicity(stats: seq<TickerStats>, s: TickerStats)
    requires DistinctPairs(stats)
    ensures multiset(stats)[s] <= 1
  {
    if stats != [] {
      var front, last := stats[..|stats| - 1], stats[|stats| - 1];
      assert stats == front + [last];
      DistinctMultiplicity(front, s);
      assert forall a :: 0 <= a < |front| ==> front[a] != last;
    }
  }

  lemma SortKeepsDistinctPairs(stats: seq<TickerStats>)
    requires DistinctPairs(stats)
    ensures DistinctPairs(RankByScore(stats))
  {
    var ranked, key := RankByScore(stats), (s: TickerStats) => -ComputeScore(s);
    SortOrders(stats, key);
    forall i, j | 0 <= i < j < |ranked|
      ensures ranked[i].pair != ranked[j].pair
    {
      assert multiset(ranked) == multiset(stats);
      SplitTwo(ranked, i, j);
      if ranked[i].pair == ranked[j].pair {
        assert ranked[i] in multiset(ranked) && ranked[j] in multiset(ranked);
        var a :| 0 <= a < |stats| && stats[a] == ranked[i];
        var b :| 0 <= b < |stats| && stats[b] == ranked[j];
        assert ranked[i] == ranked[j];
        DistinctMultiplicity(stats, ranked[i]);
      }
    }
  }

  /** The alt-only ranking is the global ranking with everything else left out. */
  lemma AltRankingIsFiltered(stats: seq<TickerStats>, alt: TickerStats -> bool)
    ensures RankByScore(Filter(stats, alt)) == Filter(RankByScore(stats), alt)
  {
    SortCommutesWithFilter(stats, s => -ComputeScore(s), alt);
  }

  lemma RankedAreAll(stats: seq<TickerStats>, s: TickerStats)
    ensures s in RankByScore(stats) <==> s in stats
  {
    SortOrders(stats, s => -ComputeScore(s));
    assert s in multiset(RankByScore(stats)) <==> s in multiset(stats);
  }

  lemma TakeFirstIsPrefix<T>(xs: seq<T>, n: int)
    ensures |TakeFirst(xs, n)| <= |xs| && forall k :: 0 <= k < |TakeFirst(xs, n)| ==> TakeFirst(xs, n)[k] == xs[k]
  {
  }

  /**
   Whoever makes the top of the alt-only ranking stands strictly above, in the global
   ranking, every ranked alt that does not: the two sorts agree, ties included.
   */
  lemma TopAltsRankHigher(stats: seq<TickerStats>, alt: TickerStats -> bool, n: int, p: TickerStats, q: TickerStats)
    requires DistinctPairs(stats)
    requires p in TakeFirst(RankByScore(Filter(stats, alt)), n)
    requires q in stats && alt(q) && q !in TakeFirst(RankByScore(Filter(stats, alt)), n)
    ensures p.pair in RankMap(RankByScore(stats)) && q.pair in RankMap(RankByScore(stats))
    ensures RankMap(RankByScore(stats))[p.pair] < RankMap(RankByScore(stats))[q.pair]
  {
    hide RankByScore, RankMap, Filter, TakeFirst, DistinctPairs;
    var global, alts := RankByScore(stats), RankByScore(Filter(stats, alt));
    AltRankingIsFiltered(stats, alt);
    FilterContents(stats, alt, q);
    RankedAreAll(Filter(stats, alt), q);
    var top := TakeFirst(alts, n);
    TakeFirstIsPrefix(alts, n);
    var i :| 0 <= i < |top| && top[i] == p;
    var j :| 0 <= j < |alts| && alts[j] == q;
    var a, b := FilterPositions(global, alt, i, j);
    SortKeepsDistinctPairs(stats);
    RankMapInverts(global, a);
    RankMapInverts(global, b);
  }
}
