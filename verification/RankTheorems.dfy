/**
 What the ranking of a refresh means for the tickers themselves: the score is the volume
 with a bounded premium, better tickers have smaller ranks, ties keep the exchange's
 order, and nothing in the top list is beaten by an alt outside it.
 */
module RankTheorems {
  import opened Numbers
  import opened Sorting
  import opened Ranking
  import opened Tiering
  import opened TieringTheorems

  // ---- the score ---------------------------------------------------------------------

  /** `s` has the larger, positive volume and is nowhere else behind. */
  predicate Dominates(s: TickerStats, t: TickerStats) {
    && s.quoteVolume > 0.0 && s.quoteVolume > t.quoteVolume
    && s.count >= t.count >= 0
    && Abs(s.priceChangePct) >= Abs(t.priceChangePct)
  }

  /** At most 10 percent for trades, reached at a hundred thousand of them. */
  function Activity(count: int): real {
    1.0 + Min(count as real / 100000.0, 1.0) * 0.1
  }

  /** At most 50 percent for the price change, reached at half its price. */
  function Volatility(change: real): real {
    1.0 + Min(Abs(change) / 100.0, 0.5)
  }

  function Premium(count: int, change: real): real {
    Activity(count) * Volatility(change)
  }

  lemma ScoreIsPremium(s: TickerStats)
    ensures ComputeScore(s) == s.quoteVolume * Premium(s.count, s.priceChangePct)
  {
  }

  lemma QuotientOrdered(x: real, y: real, c: real)
    requires x <= y && c > 0.0
    ensures x / c <= y / c && (x < y ==> x / c < y / c)
  {
    DivMonotone(x, y, c);
    DivMonotone(y, y, c);
  }

  lemma ProductOrdered(a: real, b: real, c: real, d: real)
    requires 0.0 <= a <= b && 0.0 <= c <= d
    ensures 0.0 <= a * c <= b * d
  {
    MulNonnegative(a, c);
    MulMonotone(a, b, c);
    MulMonotone(c, d, b);
  }

  lemma ActivityMonotone(count: int, count': int)
    requires 0 <= count <= count'
    ensures 1.0 <= Activity(count) <= Activity(count') <= 1.1
  {
    QuotientOrdered(0.0, count as real, 100000.0);
    QuotientOrdered(count as real, count' as real, 100000.0);
  }

  lemma VolatilityMonotone(change: real, change': real)
    requires Abs(change) <= Abs(change')
    ensures 1.0 <= Volatility(change) <= Volatility(change') <= 1.5
  {
    QuotientOrdered(0.0, Abs(change), 100.0);
    QuotientOrdered(Abs(change), Abs(change'), 100.0);
  }

  /** More trades and a larger change never lower the premium, which stays within [1, 1.65]. */
  lemma PremiumMonotone(count: int, change: real, count': int, change': real)
    requires 0 <= count <= count' && Abs(change) <= Abs(change')
    ensures 1.0 <= Premium(count, change) <= Premium(count', change') <= 1.65
  {
    hide Activity, Volatility;
    ActivityMonotone(count, count');
    VolatilityMonotone(change, change');
    ProductOrdered(1.0, Activity(count), 1.0, Volatility(change));
    ProductOrdered(Activity(count), Activity(count'), Volatility(change), Volatility(change'));
    ProductOrdered(Activity(count'), 1.1, Volatility(change'), 1.5);
  }

  lemma PlainPremium(change: real)
    requires change == 0.0
    ensures Premium(0, change) == 1.0
  {
  }

  lemma FullPremium(count: int, change: real)
    requires count >= 100000 && Abs(change) >= 50.0
    ensures Premium(count, change) == 1.65
  {
    QuotientOrdered(100000.0, count as real, 100000.0);
    QuotientOrdered(50.0, Abs(change), 100.0);
  }

  lemma Scaled(v: real, low: real, p: real, high: real)
    requires v >= 0.0 && low <= p <= high
    ensures v * low <= v * p <= v * high
  {
    MulMonotone(low, p, v);
    MulMonotone(p, high, v);
  }

  /** The score is the volume with a premium of at most 65 percent; both ends are reached. */
  lemma ScoreBounds(s: TickerStats)
    requires s.quoteVolume >= 0.0 && s.count >= 0
    ensures s.quoteVolume <= ComputeScore(s) <= 1.65 * s.quoteVolume
    ensures s.count == 0 && s.priceChangePct == 0.0 ==> ComputeScore(s) == s.quoteVolume
    ensures s.count >= 100000 && Abs(s.priceChangePct) >= 50.0 ==> ComputeScore(s) == 1.65 * s.quoteVolume
  {
    hide ComputeScore, Premium;
    ScoreIsPremium(s);
    PremiumMonotone(s.count, s.priceChangePct, s.count, s.priceChangePct);
    Scaled(s.quoteVolume, 1.0, Premium(s.count, s.priceChangePct), 1.65);
    if s.count == 0 && s.priceChangePct == 0.0 {
      PlainPremium(s.priceChangePct);
    }
    if s.count >= 100000 && Abs(s.priceChangePct) >= 50.0 {
      FullPremium(s.count, s.priceChangePct);
    }
  }

  lemma LargerProduct(v: real, w: real, p: real, q: real)
    requires v > 0.0 && v > w && p >= q >= 1.0
    ensures v * p > w * q
  {
    MulMonotone(q, p, v);
    assert (v - w) * q > 0.0;
  }

  lemma DominatesScores(s: TickerStats, t: TickerStats)
    requires Dominates(s, t)
    ensures ComputeScore(s) > ComputeScore(t)
  {
    hide ComputeScore, Premium;
    ScoreIsPremium(s);
    ScoreIsPremium(t);
    PremiumMonotone(t.count, t.priceChangePct, s.count, s.priceChangePct);
    LargerProduct(s.quoteVolume, t.quoteVolume, Premium(s.count, s.priceChangePct), Premium(t.count, t.priceChangePct));
  }

  // ---- ranks ---------------------------------------------------------------------------

  /** The ranked pairs are the active ones with statistics. */
  lemma RankedIff(m: Market, p: string)
    requires m.WellFormed()
    ensures p in RankOf(m) <==> p in m.active && p in m.tickers
  {
    hide RankMap, RankByScore;
    var stats := StatsOf(m.tickers, m.active);
    StatsPairs(m.tickers, m.active);
    RankMapDomain(RankByScore(stats), p);
    if p in m.active && p in m.tickers {
      RankedAreAll(stats, m.tickers[p]);
      var i :| 0 <= i < |RankByScore(stats)| && RankByScore(stats)[i] == m.tickers[p];
    }
    if p in RankOf(m) {
      var i :| 0 <= i < |RankByScore(stats)| && RankByScore(stats)[i].pair == p;
      RankedAreAll(stats, RankByScore(stats)[i]);
    }
  }

  /** Where a ranked pair stands. */
  lemma RankedAt(m: Market, p: string) returns (i: nat)
    requires m.WellFormed() && p in RankOf(m)
    ensures var ranked := RankByScore(StatsOf(m.tickers, m.active));
            i < |ranked| && p in m.tickers && ranked[i] == m.tickers[p] && RankOf(m)[p] == i + 1
  {
    hide RankMap, RankByScore, DistinctPairs;
    var stats := StatsOf(m.tickers, m.active);
    var ranked := RankByScore(stats);
    StatsPairs(m.tickers, m.active);
    SortKeepsDistinctPairs(stats);
    RankMapDomain(ranked, p);
    i :| 0 <= i < |ranked| && ranked[i].pair == p;
    RankMapInverts(ranked, i);
    RankedAreAll(stats, ranked[i]);
  }

  lemma RankingDescends(stats: seq<TickerStats>, i: nat, j: nat)
    requires i < j < |RankByScore(stats)|
    ensures ComputeScore(RankByScore(stats)[i]) >= ComputeScore(RankByScore(stats)[j])
  {
    hide ComputeScore;
    SortOrders(stats, s => -ComputeScore(s));
  }

  /** A strictly better score is a strictly smaller rank. */
  lemma RankFollowsScore(m: Market, p: string, q: string)
    requires m.WellFormed() && p in RankOf(m) && q in RankOf(m)
    ensures p in m.tickers && q in m.tickers
    ensures ComputeScore(m.tickers[p]) > ComputeScore(m.tickers[q]) ==> RankOf(m)[p] < RankOf(m)[q]
  {
    hide ComputeScore, RankByScore, RankOf;
    var i := RankedAt(m, p);
    var j := RankedAt(m, q);
    if j < i {
      RankingDescends(StatsOf(m.tickers, m.active), j, i);
    }
  }

  /** The larger volume ranks higher, unless it is behind in trades or price change. */
  lemma DominantRanksHigher(m: Market, p: string, q: string)
    requires m.WellFormed() && p in m.active && q in m.active && p in m.tickers && q in m.tickers
    requires Dominates(m.tickers[p], m.tickers[q])
    ensures p in RankOf(m) && q in RankOf(m) && RankOf(m)[p] < RankOf(m)[q]
  {
    hide RankOf, ComputeScore, Dominates;
    RankedIff(m, p);
    RankedIff(m, q);
    DominatesScores(m.tickers[p], m.tickers[q]);
    RankFollowsScore(m, p, q);
  }

  /** A volume more than 65 percent larger outranks any activity and volatility. */
  lemma VolumeDecides(m: Market, p: string, q: string)
    requires m.WellFormed() && p in m.active && q in m.active && p in m.tickers && q in m.tickers
    requires m.tickers[p].count >= 0 && m.tickers[q].count >= 0 && m.tickers[q].quoteVolume >= 0.0
    requires m.tickers[p].quoteVolume > 1.65 * m.tickers[q].quoteVolume
    ensures p in RankOf(m) && q in RankOf(m) && RankOf(m)[p] < RankOf(m)[q]
  {
    hide RankOf, ComputeScore;
    RankedIff(m, p);
    RankedIff(m, q);
    ScoreBounds(m.tickers[p]);
    ScoreBounds(m.tickers[q]);
    RankFollowsScore(m, p, q);
  }

  // ---- the top list ----------------------------------------------------------------------

  /** No alt in the top list leaves out an active alt that dominates it. */
  lemma DominantIsInTop(cfg: Config, m: Market, p: string, q: string)
    requires m.WellFormed() && p in m.active && p in m.tickers && IsAlt(cfg, p) && q in m.tickers
    requires q in TopN(cfg, m) && Dominates(m.tickers[p], m.tickers[q])
    ensures p in TopN(cfg, m)
  {
    hide RankOf, ComputeScore, Dominates, TopN, IsAlt;
    RankedIff(m, p);
    if p !in TopN(cfg, m) {
      TopNRanksHigher(cfg, m, q, p);
      RankedIff(m, q);
      DominantRanksHigher(m, p, q);
      assert false;
    }
  }

  // ---- ties --------------------------------------------------------------------------------

  lemma {:induction false} FilterKeepsPositions<T>(xs: seq<T>, p: T -> bool, i: nat, j: nat) returns (a: nat, b: nat)
    requires i < j < |xs| && p(xs[i]) && p(xs[j])
    ensures a < b < |Filter(xs, p)| && Filter(xs, p)[a] == xs[i] && Filter(xs, p)[b] == xs[j]
  {
    var front, last := xs[..|xs| - 1], xs[|xs| - 1];
    if j < |front| {
      a, b := FilterKeepsPositions(front, p, i, j);
    } else {
      FilterContents(front, p, xs[i]);
      a :| 0 <= a < |Filter(front, p)| && Filter(front, p)[a] == xs[i];
      b := |Filter(front, p)|;
    }
  }

  lemma {:induction false} StatsMember(tickers: map<string, TickerStats>, active: seq<string>, i: nat) returns (a: nat)
    requires i < |active| && active[i] in tickers
    ensures a < |StatsOf(tickers, active)| && StatsOf(tickers, active)[a] == tickers[active[i]]
  {
    var n := |active| - 1;
    if i < n {
      a := StatsMember(tickers, active[..n], i);
    } else {
      a := |StatsOf(tickers, active[..n])|;
    }
  }

  lemma {:induction false} StatsOrder(tickers: map<string, TickerStats>, active: seq<string>, i: nat, j: nat)
    returns (a: nat, b: nat)
    requires i < j < |active| && active[i] in tickers && active[j] in tickers
    ensures var stats := StatsOf(tickers, active);
            a < b < |stats| && stats[a] == tickers[active[i]] && stats[b] == tickers[active[j]]
  {
    var n := |active| - 1;
    if j < n {
      a, b := StatsOrder(tickers, active[..n], i, j);
    } else {
      a := StatsMember(tickers, active[..n], i);
      b := |StatsOf(tickers, active[..n])|;
    }
  }

  lemma EqualScoresStay(stats: seq<TickerStats>, same: TickerStats -> bool, score: real)
    requires forall s :: same(s) <==> ComputeScore(s) == score
    ensures Filter(RankByScore(stats), same) == Filter(stats, same)
  {
    hide ComputeScore;
    AltRankingIsFiltered(stats, same);
    forall s | s in Filter(stats, same)
      ensures -ComputeScore(s) == -score
    {
      FilterContents(stats, same, s);
    }
    SortEqualKeys(Filter(stats, same), s => -ComputeScore(s), -score);
  }

  /** Pairs of equal score are ranked in the order in which the exchange lists them. */
  lemma TiesKeepExchangeOrder(m: Market, i: nat, j: nat)
    requires m.WellFormed() && i < j < |m.active| && m.active[i] in m.tickers && m.active[j] in m.tickers
    requires ComputeScore(m.tickers[m.active[i]]) == ComputeScore(m.tickers[m.active[j]])
    ensures m.active[i] in RankOf(m) && m.active[j] in RankOf(m) && RankOf(m)[m.active[i]] < RankOf(m)[m.active[j]]
  {
    hide ComputeScore, RankMap, DistinctPairs, SortBy, Filter, StatsOf, RankByScore;
    var stats := StatsOf(m.tickers, m.active);
    var score := ComputeScore(m.tickers[m.active[i]]);
    var same := (s: TickerStats) => ComputeScore(s) == score;
    var a, b := StatsOrder(m.tickers, m.active, i, j);
    EqualScoresStay(stats, same, score);
    var c, d := FilterKeepsPositions(stats, same, a, b);
    var e, f := FilterPositions(RankByScore(stats), same, c, d);
    StatsPairs(m.tickers, m.active);
    SortKeepsDistinctPairs(stats);
    RankMapInverts(RankByScore(stats), e);
    RankMapInverts(RankByScore(stats), f);
  }
}
