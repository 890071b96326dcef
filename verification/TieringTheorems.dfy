/**
 What every refresh establishes about tiers, what the transition log tells over whole
 runs, and what survives a restart.
 */
module TieringTheorems {
  import opened Collections
  import opened Sorting
  import opened Ranking
  import opened Tiering
  import opened SpikeHysteresis

  // ---- the tiers after a refresh ------------------------------------------------------

  /** For every trading symbol tier, class and spike tag follow from four memberships. */
  lemma TiersCharacterised(cfg: Config, m: Market, u: Universe, b: string)
    requires u.WellFormed(cfg)
    requires b in Refreshed(cfg, m, u).syms && Refreshed(cfg, m, u).syms[b].status == Trading
    ensures var v := Refreshed(cfg, m, u);
            var s, top := v.syms[b], TopN(cfg, m);
            && (s.tier == TIER_CORE <==> b in cfg.core)
            && (s.tier == TIER_WATCH <==> b !in cfg.core && (b in cfg.meme || s.pair in top || b in v.promoted))
            && (s.tier == TIER_REST <==> b !in cfg.core && b !in cfg.meme && s.pair !in top && b !in v.promoted)
            && s.klass == (if b in cfg.core then "core" else if b in cfg.meme then "meme" else "alt")
            && s.tags == {s.klass} + (if b in v.promoted then {"spike"} else {})
            && (b in v.promoted ==> b !in cfg.core && b !in cfg.meme && s.pair !in top)
  {
    hide Synced, TopN, IsSpiking;
    SyncedWellFormed(cfg, m, u);
  }

  lemma {:induction false} ListedTradesOnlyActive(cfg: Config, tickers: map<string, TickerStats>,
                                                  rankOf: map<string, nat>, u: Universe, pairs: seq<string>, b: string)
    requires b in ListedAll(cfg, tickers, rankOf, u, pairs).syms
    ensures var s := ListedAll(cfg, tickers, rankOf, u, pairs).syms[b];
            (s.pair in pairs && s.status == Trading) || (b in u.syms && s == u.syms[b])
  {
    if pairs != [] {
      var front, p := pairs[..|pairs| - 1], pairs[|pairs| - 1];
      assert pairs == front + [p];
      if b != cfg.baseOf(p) {
        ListedTradesOnlyActive(cfg, tickers, rankOf, u, front, b);
      }
    }
  }

  /** After syncing, whatever trades does so under a pair the exchange lists as active. */
  lemma TradingIsActive(cfg: Config, m: Market, u: Universe, b: string)
    requires b in Synced(cfg, m, u).syms && Synced(cfg, m, u).syms[b].status == Trading
    ensures Synced(cfg, m, u).syms[b].pair in m.active
  {
    ListedTradesOnlyActive(cfg, m.tickers, RankOf(m), Delisted(m.active, u), m.active, b);
  }

  ghost predicate LastOfBase(cfg: Config, active: seq<string>, i: nat)
    requires i < |active|
  {
    forall j :: i < j < |active| ==> cfg.baseOf(active[j]) != cfg.baseOf(active[i])
  }

  /** No later pair of the exchange's list has the same display symbol. */
  ghost predicate KeepsItsRecord(cfg: Config, active: seq<string>, p: string) {
    exists i :: 0 <= i < |active| && active[i] == p && LastOfBase(cfg, active, i)
  }

  lemma {:induction false} LastOfBaseExists(cfg: Config, active: seq<string>, k: nat) returns (i: nat)
    requires k < |active|
    ensures i < |active| && cfg.baseOf(active[i]) == cfg.baseOf(active[k]) && LastOfBase(cfg, active, i)
    decreases |active| - k
  {
    if LastOfBase(cfg, active, k) {
      return k;
    }
    var j :| k < j < |active| && cfg.baseOf(active[j]) == cfg.baseOf(active[k]);
    i := LastOfBaseExists(cfg, active, j);
  }

  /** The last listed pair of each display symbol is the one its record trades under. */
  lemma {:induction false} ListedPairStays(cfg: Config, tickers: map<string, TickerStats>, rankOf: map<string, nat>,
                                           u: Universe, pairs: seq<string>, i: nat)
    requires i < |pairs|
    requires LastOfBase(cfg, pairs, i)
    ensures var v, b := ListedAll(cfg, tickers, rankOf, u, pairs), cfg.baseOf(pairs[i]);
            b in v.syms && v.syms[b].pair == pairs[i] && v.syms[b].status == Trading
  {
    var n := |pairs| - 1;
    if i < n {
      ListedPairStays(cfg, tickers, rankOf, u, pairs[..n], i);
    }
  }

  lemma {:induction false} NeverListed(cfg: Config, tickers: map<string, TickerStats>, rankOf: map<string, nat>,
                                       u: Universe, pairs: seq<string>, b: string)
    requires forall j :: 0 <= j < |pairs| ==> cfg.baseOf(pairs[j]) != b
    ensures var v := ListedAll(cfg, tickers, rankOf, u, pairs);
            (b in v.syms <==> b in u.syms) && (b in u.syms ==> v.syms[b] == u.syms[b])
  {
    hide ListedSym;
    if pairs != [] {
      NeverListed(cfg, tickers, rankOf, u, pairs[..|pairs| - 1], b);
    }
  }

  lemma {:induction false} ListedOnce(cfg: Config, tickers: map<string, TickerStats>, rankOf: map<string, nat>,
                                      u: Universe, pairs: seq<string>, i: nat)
    requires i < |pairs|
    requires forall j :: 0 <= j < |pairs| && j != i ==> cfg.baseOf(pairs[j]) != cfg.baseOf(pairs[i])
    ensures var v, b := ListedAll(cfg, tickers, rankOf, u, pairs), cfg.baseOf(pairs[i]);
            b in v.syms
            && v.syms[b] == ListedSym(tickers, rankOf, pairs[i], if b in u.syms then u.syms[b] else Discovered(b, pairs[i]))
  {
    hide ListedSym;
    var n := |pairs| - 1;
    if i < n {
      ListedOnce(cfg, tickers, rankOf, u, pairs[..n], i);
    } else {
      NeverListed(cfg, tickers, rankOf, u, pairs[..n], cfg.baseOf(pairs[n]));
    }
  }

  /** A symbol the exchange no longer lists only freezes: tier, tags, metrics and promotion stay. */
  lemma UnlistedOnlyFreezes(cfg: Config, m: Market, u: Universe, b: string)
    requires u.WellFormed(cfg) && b in u.syms && forall p :: p in m.active ==> cfg.baseOf(p) != b
    ensures var v := Refreshed(cfg, m, u);
            b in v.syms && v.syms[b] == u.syms[b].(status := Frozen) && (b in v.promoted <==> b in u.promoted)
  {
    hide TopN, RankOf, ListedAll, VerdictOf, TagsOf;
    NeverListed(cfg, m.tickers, RankOf(m), Delisted(m.active, u), m.active, b);
    SyncedWellFormed(cfg, m, u);
  }

  /**
   A symbol with one active pair trades under it with its rank; statistics, if there
   are any, replace the ones before, which are kept for the spike comparison.
   */
  lemma ListedMetrics(cfg: Config, m: Market, u: Universe, i: nat)
    requires u.WellFormed(cfg) && i < |m.active|
    requires forall j :: 0 <= j < |m.active| && j != i ==> cfg.baseOf(m.active[j]) != cfg.baseOf(m.active[i])
    ensures var p, b, v := m.active[i], cfg.baseOf(m.active[i]), Refreshed(cfg, m, u);
            && b in v.syms && v.syms[b].pair == p && v.syms[b].status == Trading
            && (p in RankOf(m) ==> v.syms[b].rank == Some(RankOf(m)[p]))
            && (p !in RankOf(m) ==> v.syms[b].rank == None)
            && (p in m.tickers ==>
                  && v.syms[b].quoteVolume == m.tickers[p].quoteVolume && v.syms[b].count == m.tickers[p].count
                  && v.syms[b].priceChangePct == m.tickers[p].priceChangePct
                  && v.syms[b].lastPrice == m.tickers[p].lastPrice
                  && v.syms[b].prevQuoteVolume == Some(if b in u.syms then u.syms[b].quoteVolume else 0.0)
                  && v.syms[b].prevCount == Some(if b in u.syms then u.syms[b].count else 0))
            && (p !in m.tickers && b in u.syms ==>
                  && v.syms[b].quoteVolume == u.syms[b].quoteVolume && v.syms[b].count == u.syms[b].count
                  && v.syms[b].prevQuoteVolume == u.syms[b].prevQuoteVolume && v.syms[b].prevCount == u.syms[b].prevCount)
  {
    hide TopN, RankOf, ListedAll, VerdictOf, TagsOf;
    var p, b := m.active[i], cfg.baseOf(m.active[i]);
    ListedOnce(cfg, m.tickers, RankOf(m), Delisted(m.active, u), m.active, i);
    var before := if b in u.syms then DelistedSym(m.active, u.syms[b]) else Discovered(b, p);
    assert Synced(cfg, m, u).syms[b] == ListedSym(m.tickers, RankOf(m), p, before);
  }

  lemma {:induction false} StatsPairs(tickers: map<string, TickerStats>, pairs: seq<string>)
    requires Distinct(pairs) && forall p :: p in tickers ==> tickers[p].pair == p
    ensures DistinctPairs(StatsOf(tickers, pairs))
    ensures forall s :: s in StatsOf(tickers, pairs) <==> s.pair in pairs && s.pair in tickers && tickers[s.pair] == s
  {
    if pairs != [] {
      var front, p := pairs[..|pairs| - 1], pairs[|pairs| - 1];
      StatsPairs(tickers, front);
      assert pairs == front + [p];
      var before := StatsOf(tickers, front);
      assert forall i :: 0 <= i < |before| ==> before[i] in before;
      assert p !in front;
    }
  }

  /** The rank of a pair is its place in the global ranking, counted from 1. */
  lemma RankIsPosition(m: Market, k: nat)
    requires m.WellFormed() && k < |RankByScore(StatsOf(m.tickers, m.active))|
    ensures var p := RankByScore(StatsOf(m.tickers, m.active))[k].pair; p in RankOf(m) && RankOf(m)[p] == k + 1
  {
    hide RankByScore;
    StatsPairs(m.tickers, m.active);
    SortKeepsDistinctPairs(StatsOf(m.tickers, m.active));
    RankMapInverts(RankByScore(StatsOf(m.tickers, m.active)), k);
  }

  lemma {:induction false} FilterDistinct<T>(xs: seq<T>, p: T -> bool)
    requires Distinct(xs)
    ensures Distinct(Filter(xs, p))
  {
    if xs != [] {
      FilterDistinct(xs[..|xs| - 1], p);
      if xs[|xs| - 1] in Filter(xs[..|xs| - 1], p) {
        FilterContents(xs[..|xs| - 1], p, xs[|xs| - 1]);
      }
    }
  }

  lemma RankedAltsMembers(cfg: Config, m: Market)
    requires m.WellFormed()
    ensures var ranked := RankByScore(StatsOf(m.tickers, AltPairs(cfg, m.active)));
            && DistinctPairs(ranked)
            && forall s :: s in ranked ==> s.pair in m.active && IsAlt(cfg, s.pair)
  {
    var alts := AltPairs(cfg, m.active);
    var stats := StatsOf(m.tickers, alts);
    FilterDistinct(m.active, p => IsAlt(cfg, p));
    StatsPairs(m.tickers, alts);
    SortKeepsDistinctPairs(stats);
    SortOrders(stats, s => -ComputeScore(s));
    forall s | s in RankByScore(stats)
      ensures s.pair in m.active && IsAlt(cfg, s.pair)
    {
      assert s in multiset(RankByScore(stats));
      FilterContents(m.active, p => IsAlt(cfg, p), s.pair);
    }
  }

  lemma PairSetSize(stats: seq<TickerStats>)
    requires DistinctPairs(stats)
    ensures |set s | s in stats :: s.pair| == |stats|
  {
    var pairs := seq(|stats|, i requires 0 <= i < |stats| => stats[i].pair);
    DistinctCardinality(pairs);
    assert (set s | s in stats :: s.pair) == set p | p in pairs by {
      assert forall i :: 0 <= i < |stats| ==> pairs[i] in pairs && stats[i] in stats;
    }
  }

  function IsAltStats(cfg: Config): TickerStats -> bool {
    (s: TickerStats) => IsAlt(cfg, s.pair)
  }

  /** Looking up statistics of the alt pairs only is looking up all and keeping the alts. */
  lemma {:induction false} AltStatsAreFiltered(cfg: Config, tickers: map<string, TickerStats>, pairs: seq<string>)
    requires forall p :: p in tickers ==> tickers[p].pair == p
    ensures StatsOf(tickers, AltPairs(cfg, pairs)) == Filter(StatsOf(tickers, pairs), IsAltStats(cfg))
  {
    if pairs != [] {
      var front, p := pairs[..|pairs| - 1], pairs[|pairs| - 1];
      AltStatsAreFiltered(cfg, tickers, front);
      if p in tickers {
        FilterAppend(StatsOf(tickers, front), tickers[p], IsAltStats(cfg));
      } else {
        assert StatsOf(tickers, pairs) == StatsOf(tickers, front);
      }
      var alts := AltPairs(cfg, pairs);
      if IsAlt(cfg, p) {
        assert alts == AltPairs(cfg, front) + [p];
        assert alts[..|alts| - 1] == AltPairs(cfg, front);
      } else {
        assert alts == AltPairs(cfg, front);
      }
    }
  }

  /**
   The two rankings of a refresh agree, ties included: an alt in the top list has a
   strictly smaller global rank than every ranked alt outside it.
   */
  lemma TopNRanksHigher(cfg: Config, m: Market, p: string, q: string)
    requires m.WellFormed() && p in TopN(cfg, m)
    requires q in RankOf(m) && IsAlt(cfg, q) && q !in TopN(cfg, m)
    ensures p in RankOf(m) && RankOf(m)[p] < RankOf(m)[q]
  {
    hide IsAlt, SortBy, RankMap;
    var stats, alt := StatsOf(m.tickers, m.active), IsAltStats(cfg);
    AltStatsAreFiltered(cfg, m.tickers, m.active);
    StatsPairs(m.tickers, m.active);
    RankMapDomain(RankByScore(stats), q);
    SortOrders(stats, (s: TickerStats) => -ComputeScore(s));
    var i :| 0 <= i < |RankByScore(stats)| && RankByScore(stats)[i].pair == q;
    var y := RankByScore(stats)[i];
    assert y in multiset(RankByScore(stats));
    var x :| x in TopAlts(cfg, m) && x.pair == p;
    TopAltsRankHigher(stats, alt, cfg.tier1Size, x, y);
  }

  /** The members of the top list: distinct, alt, and active. */
  lemma TopAltsMembers(cfg: Config, m: Market)
    requires m.WellFormed()
    ensures DistinctPairs(TopAlts(cfg, m))
    ensures forall s :: s in TopAlts(cfg, m) ==> s.pair in m.active && IsAlt(cfg, s.pair)
    ensures |TopN(cfg, m)| == |TopAlts(cfg, m)|
  {
    hide RankByScore, StatsOf, AltPairs, IsAlt;
    RankedAltsMembers(cfg, m);
    PairSetSize(TopAlts(cfg, m));
  }

  /** The alts that hold a tier-1 slot by volume alone. */
  function VolumeAlts(cfg: Config, v: Universe): set<string> {
    set b | b in v.syms && v.syms[b].status == Trading && v.syms[b].tier == TIER_WATCH
            && b !in cfg.core && b !in cfg.meme && "spike" !in v.syms[b].tags
  }

  /** The pair of a trading symbol is the last active one that shares its display symbol. */
  lemma RefreshedTradesUnderLast(cfg: Config, m: Market, u: Universe, b: string)
    requires u.WellFormed(cfg)
    requires b in Refreshed(cfg, m, u).syms && Refreshed(cfg, m, u).syms[b].status == Trading
    ensures var p := Refreshed(cfg, m, u).syms[b].pair; cfg.baseOf(p) == b && KeepsItsRecord(cfg, m.active, p)
  {
    hide TopN, VerdictOf, TagsOf, ListedAll, RankOf, StaysPromoted;
    SyncedWellFormed(cfg, m, u);
    TradingIsActive(cfg, m, u, b);
    var p := Synced(cfg, m, u).syms[b].pair;
    var k :| 0 <= k < |m.active| && m.active[k] == p;
    var i := LastOfBaseExists(cfg, m.active, k);
    ListedPairStays(cfg, m.tickers, RankOf(m), Delisted(m.active, u), m.active, i);
  }

  lemma VolumeAltsAreTop(cfg: Config, m: Market, u: Universe)
    requires m.WellFormed() && u.WellFormed(cfg)
    ensures VolumeAlts(cfg, Refreshed(cfg, m, u))
         == set p | p in TopN(cfg, m) && KeepsItsRecord(cfg, m.active, p) :: cfg.baseOf(p)
  {
    hide TopAlts, IsSpiking, ListedAll;
    var v, top := Refreshed(cfg, m, u), TopN(cfg, m);
    SyncedWellFormed(cfg, m, u);
    TopAltsMembers(cfg, m);
    forall b | b in VolumeAlts(cfg, v)
      ensures exists p :: p in top && KeepsItsRecord(cfg, m.active, p) && cfg.baseOf(p) == b
    {
      TiersCharacterised(cfg, m, u, b);
      RefreshedTradesUnderLast(cfg, m, u, b);
      assert v.syms[b].pair in top;
    }
    forall p | p in top && KeepsItsRecord(cfg, m.active, p)
      ensures cfg.baseOf(p) in VolumeAlts(cfg, v)
    {
      var i :| 0 <= i < |m.active| && m.active[i] == p && LastOfBase(cfg, m.active, i);
      ListedPairStays(cfg, m.tickers, RankOf(m), Delisted(m.active, u), m.active, i);
      TiersCharacterised(cfg, m, u, cfg.baseOf(p));
    }
  }

  lemma {:induction false} InjectiveImageSize(ps: set<string>, f: string -> string)
    requires forall p, q :: p in ps && q in ps && p != q ==> f(p) != f(q)
    ensures |set p | p in ps :: f(p)| == |ps|
  {
    if ps != {} {
      var p :| p in ps;
      var rest := ps - {p};
      InjectiveImageSize(rest, f);
      assert (set q | q in ps :: f(q)) == (set q | q in rest :: f(q)) + {f(p)};
      assert f(p) !in set q | q in rest :: f(q);
    }
  }

  lemma SubsetSize(xs: set<string>, ys: set<string>)
    requires xs <= ys
    ensures |xs| <= |ys| && (|xs| == |ys| <==> xs == ys)
  {
    assert ys == xs + (ys - xs);
  }

  /**
   Exactly as many alts hold an untagged tier-1 slot as the configured size allows and
   the ranked active alts provide, if and only if no top pair is shadowed by a later
   active pair with the same display symbol.
   */
  lemma VolumeSlotsFilled(cfg: Config, m: Market, u: Universe)
    requires m.WellFormed() && u.WellFormed(cfg) && cfg.tier1Size >= 0
    ensures var ranked := |StatsOf(m.tickers, AltPairs(cfg, m.active))|;
            var slots := if cfg.tier1Size < ranked then cfg.tier1Size else ranked;
            && |VolumeAlts(cfg, Refreshed(cfg, m, u))| <= slots
            && (|VolumeAlts(cfg, Refreshed(cfg, m, u))| == slots
                <==> forall p :: p in TopN(cfg, m) ==> KeepsItsRecord(cfg, m.active, p))
  {
    hide Refreshed;
    VolumeAltsAreTop(cfg, m, u);
    TopAltsMembers(cfg, m);
    var top := TopN(cfg, m);
    var kept := set p | p in top && KeepsItsRecord(cfg, m.active, p);
    InjectiveImageSize(kept, cfg.baseOf);
    assert VolumeAlts(cfg, Refreshed(cfg, m, u)) == set p | p in kept :: cfg.baseOf(p);
    SortOrders(StatsOf(m.tickers, AltPairs(cfg, m.active)), s => -ComputeScore(s));
    SubsetSize(kept, top);
  }

  lemma OnlyOneRanked(p: string, q: string, stats: TickerStats)
    requires p != q
    ensures StatsOf(map[p := stats], [p, q]) == [stats] && RankByScore([stats]) == [stats]
  {
    hide SortBy;
    var tickers := map[p := stats];
    assert [p, q][..1] == [p] && [p][..0] == [];
    assert StatsOf(tickers, [p]) == StatsOf(tickers, []) + [stats];
    assert StatsOf(tickers, [p, q]) == StatsOf(tickers, [p]) + [];
    SortOrders([stats], (s: TickerStats) => -ComputeScore(s));
    assert RankByScore([stats])[0] in multiset(RankByScore([stats]));
  }

  /**
   Two active pairs of one display symbol, the first with statistics and the second
   without, leave the only slot empty.
   */
  lemma ShadowedPair(cfg: Config, u: Universe, p: string, q: string, stats: TickerStats)
    requires u.WellFormed(cfg) && cfg.tier1Size == 1 && p != q && stats.pair == p
    requires IsAlt(cfg, p) && cfg.baseOf(p) == cfg.baseOf(q)
    ensures var m := Market([p, q], map[p := stats]);
            && m.WellFormed() && |StatsOf(m.tickers, AltPairs(cfg, m.active))| == 1
            && VolumeAlts(cfg, Refreshed(cfg, m, u)) == {}
  {
    hide Refreshed, VolumeAlts, RankByScore, StatsOf;
    var m := Market([p, q], map[p := stats]);
    FilterAll(m.active, x => IsAlt(cfg, x));
    OnlyOneRanked(p, q, stats);
    assert AltPairs(cfg, m.active) == m.active;
    assert TopAlts(cfg, m) == [stats] && stats in TopAlts(cfg, m);
    assert !KeepsItsRecord(cfg, m.active, p) by {
      assert m.active[1] == q;
    }
    VolumeSlotsFilled(cfg, m, u);
  }

  /** An input: a meme listed both plainly and by the thousand, of which only the plain pair trades volume. */
  lemma ShadowedPairLeavesSlotEmpty() returns (cfg: Config, m: Market)
    ensures cfg.tier1Size == 1 && m.WellFormed()
    ensures m.active == ["PEPEUSDT", "1000PEPEUSDT"] && m.tickers.Keys == {"PEPEUSDT"}
    ensures cfg.baseOf("PEPEUSDT") == cfg.baseOf("1000PEPEUSDT") == "PEPE"
    ensures |StatsOf(m.tickers, AltPairs(cfg, m.active))| == 1
    ensures VolumeAlts(cfg, Refreshed(cfg, m, Universe([], map[], {}))) == {}
  {
    hide Refreshed, VolumeAlts, StatsOf, AltPairs;
    var p, q := "PEPEUSDT", "1000PEPEUSDT";
    assert |p| != |q|;
    cfg := Config({}, {}, 1, 1, 2.0, 5.0, (s: string) => "PEPE");
    var stats := TickerStats(p, 1.0, 1.0, 0.0, 1);
    m := Market([p, q], map[p := stats]);
    ShadowedPair(cfg, Universe([], map[], {}), p, q, stats);
  }

  // ---- the transition log over whole runs -------------------------------------------------

  /** The entries start at `t0`, each continues where the one before ended, and they end at `t1`. */
  predicate Faithful(t0: int, entries: seq<TierChange>, t1: int) {
    if entries == [] then t0 == t1
    else
      var last := entries[|entries| - 1];
      last.toTier == t1 && Faithful(t0, entries[..|entries| - 1], last.fromTier)
  }

  function LogFor(log: seq<TierChange>, b: string): seq<TierChange> {
    Filter(log, (c: TierChange) => c.base == b)
  }

  lemma NoLog(b: string)
    ensures LogFor([], b) == []
  {
  }

  function TierIn(u: Universe, b: string): int {
    if b in u.syms then u.syms[b].tier else TIER_REST
  }

  lemma {:induction false} FaithfulConcat(t0: int, xs: seq<TierChange>, t1: int, ys: seq<TierChange>, t2: int)
    requires Faithful(t0, xs, t1) && Faithful(t1, ys, t2)
    ensures Faithful(t0, xs + ys, t2)
  {
    if ys == [] {
      assert xs + ys == xs;
    } else {
      FaithfulConcat(t0, xs, t1, ys[..|ys| - 1], ys[|ys| - 1].fromTier);
      assert (xs + ys)[..|xs + ys| - 1] == xs + ys[..|ys| - 1];
    }
  }

  lemma {:induction false} LogForConcat(xs: seq<TierChange>, ys: seq<TierChange>, b: string)
    ensures LogFor(xs + ys, b) == LogFor(xs, b) + LogFor(ys, b)
  {
    if ys == [] {
      assert xs + ys == xs;
    } else {
      LogForConcat(xs, ys[..|ys| - 1], b);
      assert (xs + ys)[..|xs + ys| - 1] == xs + ys[..|ys| - 1];
    }
  }

  lemma LogForOne(xs: seq<TierChange>, k: string, b: string)
    requires |xs| <= 1 && forall i :: 0 <= i < |xs| ==> xs[i].base == k
    ensures LogFor(xs, b) == if k == b then xs else []
  {
    if |xs| == 1 {
      FilterAppend([], xs[0], (c: TierChange) => c.base == b);
      assert xs == [] + [xs[0]];
    }
  }

  lemma DelistChangeIsOwn(active: seq<string>, k: string, s: Sym)
    ensures var xs := DelistChange(active, k, s);
            |xs| <= 1 && forall i :: 0 <= i < |xs| ==> xs[i].base == k && xs[i].fromTier == s.tier == xs[i].toTier
  {
  }

  /** Of one cycle's delist entries a symbol owns just its own. */
  lemma {:induction false} DelistLogFor(active: seq<string>, u: Universe, order: seq<string>, b: string)
    requires Distinct(order) && forall k :: k in order ==> k in u.syms
    ensures LogFor(DelistChanges(active, u, order), b) == if b in order then DelistChange(active, b, u.syms[b]) else []
  {
    hide LogFor, DelistChange;
    NoLog(b);
    if order != [] {
      var front, k := order[..|order| - 1], order[|order| - 1];
      DelistLogFor(active, u, front, b);
      LogForConcat(DelistChanges(active, u, front), DelistChange(active, k, u.syms[k]), b);
      assert order == front + [k];
      DelistChangeIsOwn(active, k, u.syms[k]);
      LogForOne(DelistChange(active, k, u.syms[k]), k, b);
    }
  }

  lemma TierChangeIsOwn(cfg: Config, topN: set<string>, k: string, s: Sym, promoted: bool)
    ensures var xs, after := TierChangeOf(cfg, topN, k, s, promoted), AssignedSym(cfg, topN, k, s, promoted);
            && |xs| <= 1 && (xs == [] ==> after.tier == s.tier)
            && forall i :: 0 <= i < |xs| ==> xs[i].base == k && xs[i].fromTier == s.tier && xs[i].toTier == after.tier
  {
    hide VerdictOf, BaseTier, TagsOf;
  }

  lemma {:induction false} AssignLogFor(cfg: Config, topN: set<string>, u: Universe, order: seq<string>, b: string)
    requires Distinct(order) && forall k :: k in order ==> k in u.syms
    ensures LogFor(AssignChanges(cfg, topN, u, order), b)
         == if b in order then TierChangeOf(cfg, topN, b, u.syms[b], b in u.promoted) else []
  {
    hide LogFor, TierChangeOf;
    NoLog(b);
    if order != [] {
      var front, k := order[..|order| - 1], order[|order| - 1];
      AssignLogFor(cfg, topN, u, front, b);
      var own := TierChangeOf(cfg, topN, k, u.syms[k], k in u.promoted);
      LogForConcat(AssignChanges(cfg, topN, u, front), own, b);
      assert order == front + [k];
      TierChangeIsOwn(cfg, topN, k, u.syms[k], k in u.promoted);
      LogForOne(own, k, b);
    }
  }

  lemma {:induction false} ListingKeepsTier(cfg: Config, tickers: map<string, TickerStats>, rankOf: map<string, nat>,
                                            u: Universe, pairs: seq<string>, b: string)
    ensures TierIn(ListedAll(cfg, tickers, rankOf, u, pairs), b) == TierIn(u, b)
    ensures b in u.syms ==> b in ListedAll(cfg, tickers, rankOf, u, pairs).syms
  {
    if pairs != [] {
      ListingKeepsTier(cfg, tickers, rankOf, u, pairs[..|pairs| - 1], b);
    }
  }

  lemma FaithfulOne(xs: seq<TierChange>, t0: int, t1: int)
    requires |xs| <= 1 && (xs == [] ==> t0 == t1) && (|xs| == 1 ==> xs[0].fromTier == t0 && xs[0].toTier == t1)
    ensures Faithful(t0, xs, t1)
  {
    if |xs| == 1 {
      assert xs[..0] == [];
    }
  }

  lemma DelistIsFaithful(cfg: Config, active: seq<string>, u: Universe, b: string)
    requires u.WellFormed(cfg)
    ensures Faithful(TierIn(u, b), LogFor(DelistChanges(active, u, u.order), b), TierIn(u, b))
  {
    hide LogFor, DelistChanges, Faithful;
    DelistLogFor(active, u, u.order, b);
    if b in u.order {
      DelistChangeIsOwn(active, b, u.syms[b]);
    }
    FaithfulOne(LogFor(DelistChanges(active, u, u.order), b), TierIn(u, b), TierIn(u, b));
  }

  lemma AssignIsFaithful(cfg: Config, topN: set<string>, u: Universe, b: string)
    requires u.WellFormed(cfg)
    ensures Faithful(TierIn(u, b), LogFor(AssignChanges(cfg, topN, u, u.order), b), TierIn(Assigned(cfg, topN, u), b))
  {
    hide LogFor, AssignChanges, Faithful, TierChangeOf, AssignedSym, StaysPromoted;
    AssignLogFor(cfg, topN, u, u.order, b);
    if b in u.order {
      TierChangeIsOwn(cfg, topN, b, u.syms[b], b in u.promoted);
    }
    FaithfulOne(LogFor(AssignChanges(cfg, topN, u, u.order), b), TierIn(u, b), TierIn(Assigned(cfg, topN, u), b));
  }

  /** One cycle's entries for a symbol lead from its tier before to its tier after. */
  lemma CycleIsFaithful(cfg: Config, m: Market, u: Universe, b: string)
    requires u.WellFormed(cfg)
    ensures Faithful(TierIn(u, b), LogFor(Changes(cfg, m, u), b), TierIn(Refreshed(cfg, m, u), b))
  {
    hide TopN, RankOf, Faithful, LogFor, Assigned, AssignChanges, DelistChanges, ListedAll;
    SyncedWellFormed(cfg, m, u);
    var mid, top := Synced(cfg, m, u), TopN(cfg, m);
    assert TierIn(mid, b) == TierIn(u, b) by {
      ListingKeepsTier(cfg, m.tickers, RankOf(m), Delisted(m.active, u), m.active, b);
    }
    var first, second := DelistChanges(m.active, u, u.order), AssignChanges(cfg, top, mid, mid.order);
    DelistIsFaithful(cfg, m.active, u, b);
    AssignIsFaithful(cfg, top, mid, b);
    LogForConcat(first, second, b);
    FaithfulConcat(TierIn(u, b), LogFor(first, b), TierIn(u, b), LogFor(second, b), TierIn(Refreshed(cfg, m, u), b));
  }

  lemma {:induction false} ListingKeepsClass(cfg: Config, tickers: map<string, TickerStats>, rankOf: map<string, nat>,
                                             u: Universe, pairs: seq<string>, b: string)
    requires b in u.syms
    ensures var v := ListedAll(cfg, tickers, rankOf, u, pairs);
            b in v.syms && v.syms[b].tier == u.syms[b].tier && v.syms[b].klass == u.syms[b].klass
  {
    if pairs != [] {
      ListingKeepsClass(cfg, tickers, rankOf, u, pairs[..|pairs| - 1], b);
    }
  }

  lemma TierChangeIff(cfg: Config, topN: set<string>, b: string, s: Sym, promoted: bool)
    ensures var after := AssignedSym(cfg, topN, b, s, promoted);
            TierChangeOf(cfg, topN, b, s, promoted) == [] <==> after.tier == s.tier && after.klass == s.klass
  {
    hide VerdictOf, BaseTier, TagsOf;
  }

  /**
   Being relisted is not an entry of its own: a frozen symbol enters the log of a cycle
   exactly when its tier or class changes in it, whether it came back or not.
   */
  lemma RelistingIsNotLogged(cfg: Config, m: Market, u: Universe, b: string)
    requires u.WellFormed(cfg) && b in u.syms && u.syms[b].status == Frozen
    ensures var v := Refreshed(cfg, m, u);
            && b in v.syms
            && (LogFor(Changes(cfg, m, u), b) == []
                <==> v.syms[b].tier == u.syms[b].tier && v.syms[b].klass == u.syms[b].klass)
  {
    hide TopN, RankOf, LogFor, AssignChanges, DelistChanges, ListedAll, TierChangeOf, AssignedSym, StaysPromoted;
    SyncedWellFormed(cfg, m, u);
    var mid, top := Synced(cfg, m, u), TopN(cfg, m);
    ListingKeepsClass(cfg, m.tickers, RankOf(m), Delisted(m.active, u), m.active, b);
    LogForConcat(DelistChanges(m.active, u, u.order), AssignChanges(cfg, top, mid, mid.order), b);
    DelistLogFor(m.active, u, u.order, b);
    AssignLogFor(cfg, top, mid, mid.order, b);
    TierChangeIff(cfg, top, b, mid.syms[b], b in mid.promoted);
  }

  /** Some active pair has this display symbol. */
  ghost predicate IsListed(cfg: Config, active: seq<string>, b: string) {
    exists i :: 0 <= i < |active| && cfg.baseOf(active[i]) == b
  }

  lemma ListedTrades(cfg: Config, m: Market, u: Universe, b: string)
    requires IsListed(cfg, m.active, b)
    ensures var mid := Synced(cfg, m, u); b in mid.syms && mid.syms[b].status == Trading
  {
    hide ListedSym, RankOf;
    var k :| 0 <= k < |m.active| && cfg.baseOf(m.active[k]) == b;
    var i := LastOfBaseExists(cfg, m.active, k);
    ListedPairStays(cfg, m.tickers, RankOf(m), Delisted(m.active, u), m.active, i);
  }

  /** The tier and class a listed symbol gets, from its memberships and from what was known of it before. */
  function ExpectedTier(cfg: Config, topN: set<string>, b: string, s: Sym, promoted: bool): (int, string) {
    if b in cfg.core then (TIER_CORE, "core")
    else if b in cfg.meme then (TIER_WATCH, "meme")
    else if s.pair in topN || IsSpiking(cfg, s) || (promoted && s.calmCycles + 1 < cfg.grace) then (TIER_WATCH, "alt")
    else (TIER_REST, "alt")
  }

  lemma VerdictIsExpected(cfg: Config, topN: set<string>, b: string, s: Sym, promoted: bool)
    ensures var v := VerdictOf(cfg, topN, b, s, promoted);
            (v.tier, v.klass) == ExpectedTier(cfg, topN, b, s, promoted)
  {
    hide IsSpiking;
  }

  /**
   A frozen symbol that is listed again trades after the cycle, and its return shows in
   the log only if the tier or class it gets differs from the one it froze with.
   */
  lemma RelistedLog(cfg: Config, m: Market, u: Universe, b: string)
    requires u.WellFormed(cfg) && b in u.syms && u.syms[b].status == Frozen && IsListed(cfg, m.active, b)
    ensures var mid, v := Synced(cfg, m, u), Refreshed(cfg, m, u);
            && b in mid.syms && b in v.syms && v.syms[b].status == Trading
            && (LogFor(Changes(cfg, m, u), b) == []
                <==> (ExpectedTier(cfg, TopN(cfg, m), b, mid.syms[b], b in u.promoted)
                      == (u.syms[b].tier, u.syms[b].klass)))
  {
    hide TopN, LogFor, Changes, Synced, VerdictOf, TagsOf, StaysPromoted, ExpectedTier;
    ListedTrades(cfg, m, u, b);
    SyncedWellFormed(cfg, m, u);
    RelistingIsNotLogged(cfg, m, u, b);
    VerdictIsExpected(cfg, TopN(cfg, m), b, Synced(cfg, m, u).syms[b], b in u.promoted);
  }

  lemma {:induction false} NoStats(pairs: seq<string>)
    ensures StatsOf(map[], pairs) == []
  {
    if pairs != [] {
      NoStats(pairs[..|pairs| - 1]);
    }
  }

  lemma NothingRanked(cfg: Config, active: seq<string>)
    ensures TopN(cfg, Market(active, map[])) == {}
  {
    hide SortBy;
    var m := Market(active, map[]);
    NoStats(AltPairs(cfg, active));
    SortOrders([], (s: TickerStats) => -ComputeScore(s));
    assert TopAlts(cfg, m) == [];
  }

  /** An input: a REST symbol freezes, is listed again before it has any statistics, and no log entry tells. */
  lemma SilentRelisting() returns (cfg: Config, m: Market, u: Universe)
    ensures u.WellFormed(cfg) && m.active == ["ABCUSDT"] && u.order == ["ABC"]
    ensures u.syms["ABC"].status == Frozen && Refreshed(cfg, m, u).syms.Keys == {"ABC"}
    ensures Refreshed(cfg, m, u).syms["ABC"].status == Trading
    ensures LogFor(Changes(cfg, m, u), "ABC") == []
  {
    hide TopN, LogFor, Changes;
    var b, p := "ABC", "ABCUSDT";
    cfg := Config({}, {}, 1, 1, 2.0, 5.0, (s: string) => "ABC");
    m := Market([p], map[]);
    u := Universe([b], map[b := Discovered(b, p).(status := Frozen)], {});
    assert cfg.baseOf(m.active[0]) == b;
    RelistedLog(cfg, m, u, b);
    NothingRanked(cfg, m.active);
    ListedOnce(cfg, m.tickers, RankOf(m), Delisted(m.active, u), m.active, 0);
  }

  lemma {:induction false} RunWellFormed(cfg: Config, u: Universe, ms: seq<Market>)
    requires u.WellFormed(cfg)
    ensures Run(cfg, u, ms).WellFormed(cfg)
  {
    hide Refreshed;
    if ms != [] {
      RunWellFormed(cfg, u, ms[..|ms| - 1]);
      RefreshedWellFormed(cfg, ms[|ms| - 1], Run(cfg, u, ms[..|ms| - 1]));
    }
  }

  function Log(cfg: Config, u: Universe, ms: seq<Market>): seq<TierChange>
    requires u.WellFormed(cfg)
  {
    if ms == [] then []
    else
      var front := ms[..|ms| - 1];
      RunWellFormed(cfg, u, front);
      Log(cfg, u, front) + Changes(cfg, ms[|ms| - 1], Run(cfg, u, front))
  }

  /**
   Over any run, each symbol's log entries start at its loaded tier (REST if it was
   discovered later), continue from entry to entry, and end at its current tier.
   */
  lemma {:induction false} LogIsFaithful(cfg: Config, u: Universe, ms: seq<Market>, b: string)
    requires u.WellFormed(cfg)
    ensures Faithful(TierIn(u, b), LogFor(Log(cfg, u, ms), b), TierIn(Run(cfg, u, ms), b))
  {
    hide Changes, Refreshed, TierIn, LogFor;
    if ms == [] {
      NoLog(b);
    } else {
      var front, m := ms[..|ms| - 1], ms[|ms| - 1];
      LogIsFaithful(cfg, u, front, b);
      RunWellFormed(cfg, u, front);
      CycleIsFaithful(cfg, m, Run(cfg, u, front), b);
      LogForConcat(Log(cfg, u, front), Changes(cfg, m, Run(cfg, u, front)), b);
      FaithfulConcat(TierIn(u, b), LogFor(Log(cfg, u, front), b), TierIn(Run(cfg, u, front), b),
                     LogFor(Changes(cfg, m, Run(cfg, u, front)), b), TierIn(Run(cfg, u, ms), b));
    }
  }

  /** Read forwards, a faithful log is a chain, and replaying it reproduces the final tier. */
  lemma {:induction false} FaithfulIsChain(t0: int, entries: seq<TierChange>, t1: int, i: nat)
    requires Faithful(t0, entries, t1) && i < |entries|
    ensures entries[i].fromTier == if i == 0 then t0 else entries[i - 1].toTier
    ensures entries[|entries| - 1].toTier == t1
  {
    if i < |entries| - 1 {
      FaithfulIsChain(t0, entries[..|entries| - 1], entries[|entries| - 1].fromTier, i);
    } else if i > 0 {
      FaithfulIsChain(t0, entries[..|entries| - 1], entries[|entries| - 1].fromTier, i - 1);
    }
  }

  // ---- what survives a restart ---------------------------------------------------------------

  /** The spike tag and the promoted set say the same, for frozen symbols too. */
  ghost predicate TagsAgree(u: Universe) {
    && u.promoted <= u.syms.Keys
    && forall b :: b in u.syms ==> ("spike" in u.syms[b].tags <==> b in u.promoted)
  }

  lemma {:induction false} ListingKeepsTags(cfg: Config, tickers: map<string, TickerStats>, rankOf: map<string, nat>,
                                            u: Universe, pairs: seq<string>)
    requires TagsAgree(u)
    ensures TagsAgree(ListedAll(cfg, tickers, rankOf, u, pairs))
  {
    if pairs != [] {
      ListingKeepsTags(cfg, tickers, rankOf, u, pairs[..|pairs| - 1]);
    }
  }

  lemma RefreshKeepsTags(cfg: Config, m: Market, u: Universe)
    requires u.WellFormed(cfg) && TagsAgree(u)
    ensures TagsAgree(Refreshed(cfg, m, u))
  {
    hide TopN, IsSpiking, ListedAll;
    ListingKeepsTags(cfg, m.tickers, RankOf(m), Delisted(m.active, u), m.active);
  }

  lemma {:induction false} RunKeepsTags(cfg: Config, u: Universe, ms: seq<Market>)
    requires u.WellFormed(cfg) && TagsAgree(u)
    ensures TagsAgree(Run(cfg, u, ms))
  {
    hide Refreshed;
    if ms != [] {
      RunKeepsTags(cfg, u, ms[..|ms| - 1]);
      RunWellFormed(cfg, u, ms[..|ms| - 1]);
      RefreshKeepsTags(cfg, ms[|ms| - 1], Run(cfg, u, ms[..|ms| - 1]));
    }
  }

  /** The rows of a table in the order of their ids, which is the order of discovery. */
  function Listing(table: map<string, Row>, order: seq<string>): (r: seq<Row>)
    requires forall b :: b in order ==> b in table
    ensures |r| == |order|
  {
    seq(|order|, i requires 0 <= i < |order| => table[order[i]])
  }

  /** The persisted rows of a universe. */
  function Rows(u: Universe, order: seq<string>): (r: seq<Row>)
    requires forall b :: b in order ==> b in u.syms
    ensures |r| == |order|
  {
    Listing(RowsOf(u), order)
  }

  /** One row per base, and each under the display symbol of its pair. */
  predicate Conforms(cfg: Config, rows: seq<Row>) {
    && (forall i, j :: 0 <= i < j < |rows| ==> rows[i].base != rows[j].base)
    && (forall i :: 0 <= i < |rows| ==> cfg.baseOf(rows[i].symbol) == rows[i].base)
  }

  lemma LoadedOneMore(cfg: Config, u: Universe, r: Row)
    requires u.WellFormed(cfg) && TagsAgree(u) && r.base !in u.syms && cfg.baseOf(r.symbol) == r.base
    ensures var v := Universe(u.order + [r.base], u.syms[r.base := LoadedSym(r)],
                              if "spike" in r.tags then u.promoted + {r.base} else u.promoted);
            v.WellFormed(cfg) && TagsAgree(v)
  {
    assert forall b :: b in u.order + [r.base] <==> b in u.order || b == r.base;
  }

  predicate HasBase(rows: seq<Row>, b: string) {
    exists i :: 0 <= i < |rows| && rows[i].base == b
  }

  lemma HasBaseAppend(front: seq<Row>, r: Row, b: string)
    ensures HasBase(front + [r], b) <==> HasBase(front, b) || r.base == b
  {
    var rows := front + [r];
    assert rows[|front|] == r && forall i :: 0 <= i < |front| ==> rows[i] == front[i];
  }

  /** What is loaded is what the rows name. */
  lemma {:induction false} LoadedBases(rows: seq<Row>, b: string)
    ensures b in Loaded(rows).syms <==> HasBase(rows, b)
  {
    if rows != [] {
      hide HasBase, LoadedSym;
      var front, r := rows[..|rows| - 1], rows[|rows| - 1];
      LoadedBases(front, b);
      HasBaseAppend(front, r, b);
      assert rows == front + [r];
    }
  }

  lemma ConformingFront(cfg: Config, rows: seq<Row>)
    requires Conforms(cfg, rows) && rows != []
    ensures var front, r := rows[..|rows| - 1], rows[|rows| - 1];
            Conforms(cfg, front) && !HasBase(front, r.base) && cfg.baseOf(r.symbol) == r.base
  {
  }

  /** Conforming rows load as a universe whose tags and promoted set agree. */
  lemma {:induction false} LoadedAgrees(cfg: Config, rows: seq<Row>)
    requires Conforms(cfg, rows)
    ensures Loaded(rows).WellFormed(cfg) && TagsAgree(Loaded(rows))
  {
    if rows != [] {
      hide TagsAgree, Universe.WellFormed, LoadedSym, HasBase, Conforms;
      var front, r := rows[..|rows| - 1], rows[|rows| - 1];
      ConformingFront(cfg, rows);
      LoadedAgrees(cfg, front);
      LoadedBases(front, r.base);
      LoadedOneMore(cfg, Loaded(front), r);
    }
  }

  /** What loading the rows of the symbols in `order` yields. */
  ghost predicate LoadedFrom(v: Universe, u: Universe, order: seq<string>)
    requires forall b :: b in order ==> b in u.syms
  {
    && v.order == order
    && (forall b :: b in v.syms <==> b in order)
    && (forall b :: b in order ==> v.syms[b] == LoadedSym(RowOf(u.syms[b])))
    && (forall b :: b in v.promoted <==> b in order && b in u.promoted)
  }

  lemma LoadedStep(v: Universe, u: Universe, order: seq<string>, b: string)
    requires (forall k :: k in order ==> k in u.syms) && b in u.syms && b !in order
    requires LoadedFrom(v, u, order) && u.syms[b].base == b && ("spike" in u.syms[b].tags <==> b in u.promoted)
    ensures LoadedFrom(Universe(v.order + [b], v.syms[b := LoadedSym(RowOf(u.syms[b]))],
                                if "spike" in u.syms[b].tags then v.promoted + {b} else v.promoted),
                       u, order + [b])
  {
  }

  lemma NothingLoaded(u: Universe)
    ensures LoadedFrom(Loaded(Rows(u, [])), u, [])
  {
  }

  lemma LoadedOrder(v: Universe, u: Universe, order: seq<string>)
    requires (forall k :: k in order ==> k in u.syms) && LoadedFrom(v, u, order)
    ensures v.order == order && forall b :: b in v.syms <==> b in order
  {
  }

  lemma LoadedNext(u: Universe, front: seq<string>, b: string)
    requires (forall k :: k in front ==> k in u.syms) && b in u.syms && u.syms[b].base == b
    ensures var v := Loaded(Rows(u, front));
            Loaded(Rows(u, front + [b]))
            == Universe(if b in v.syms then v.order else v.order + [b],
                        v.syms[b := LoadedSym(RowOf(u.syms[b]))],
                        if "spike" in u.syms[b].tags then v.promoted + {b} else v.promoted)
  {
    hide LoadedSym;
    var rows := Rows(u, front + [b]);
    assert forall i :: 0 <= i < |front| ==> (front + [b])[i] == front[i] && rows[i] == RowsOf(u)[front[i]];
    assert rows[..|front|] == Rows(u, front);
    assert (front + [b])[|front|] == b && rows[|front|] == RowsOf(u)[b];
  }

  lemma {:induction false} LoadedRows(cfg: Config, u: Universe, order: seq<string>)
    requires u.WellFormed(cfg) && TagsAgree(u) && Distinct(order) && forall b :: b in order ==> b in u.syms
    ensures LoadedFrom(Loaded(Rows(u, order)), u, order)
  {
    hide Rows, LoadedFrom, LoadedSym, RowOf;
    if order == [] {
      NothingLoaded(u);
    } else {
      var front, b := order[..|order| - 1], order[|order| - 1];
      assert order == front + [b] && b !in front;
      LoadedRows(cfg, u, front);
      LoadedStep(Loaded(Rows(u, front)), u, front, b);
      LoadedNext(u, front, b);
      LoadedOrder(Loaded(Rows(u, front)), u, front);
    }
  }

  /** `v` is `u` with metrics and calm counts starting over. */
  ghost predicate Restores(v: Universe, u: Universe) {
    && v.order == u.order && v.syms.Keys == u.syms.Keys && v.promoted == u.promoted
    && (forall b :: b in u.syms ==>
          && v.syms[b].pair == u.syms[b].pair && v.syms[b].tier == u.syms[b].tier
          && v.syms[b].klass == u.syms[b].klass && v.syms[b].status == u.syms[b].status
          && v.syms[b].tags == u.syms[b].tags && v.syms[b].rank == u.syms[b].rank
          && v.syms[b].calmCycles == 0)
  }

  /**
   Restarting from the persisted rows rebuilds pair, tier, class, status, tags and rank
   of every symbol and the promoted set exactly; only metrics and calm counts start over.
   */
  lemma RestartRoundTrip(cfg: Config, u: Universe)
    requires u.WellFormed(cfg) && TagsAgree(u)
    ensures var v := Loaded(Rows(u, u.order));
            && Restores(v, u) && v.WellFormed(cfg) && TagsAgree(v)
  {
    LoadedRows(cfg, u, u.order);
    var v := Loaded(Rows(u, u.order));
    assert v.promoted == u.promoted by {
      assert forall b :: b in u.promoted ==> b in u.syms;
    }
  }

  /** Every universe a run reaches from the rows of an earlier one can be restarted without loss. */
  lemma EveryRunRestarts(cfg: Config, rows: seq<Row>, ms: seq<Market>)
    requires Conforms(cfg, rows)
    ensures var w := Run(cfg, Loaded(rows), ms);
            && w.WellFormed(cfg) && TagsAgree(w)
            && Restores(Loaded(Rows(w, w.order)), w)
  {
    hide Loaded, Run, Restores, TagsAgree;
    LoadedAgrees(cfg, rows);
    RunWellFormed(cfg, Loaded(rows), ms);
    RunKeepsTags(cfg, Loaded(rows), ms);
    RestartRoundTrip(cfg, Run(cfg, Loaded(rows), ms));
  }
}
