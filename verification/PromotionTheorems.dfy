/**
 Promotion, transitions and the watchlist in terms of what goes into a refresh: the
 statistics it fetched, the record a symbol had before, and its memberships.
 */
module PromotionTheorems {
  import opened Numbers
  import opened Ranking
  import opened Tiering
  import opened TieringTheorems
  import opened SpikeHysteresis
  import opened Subscriptions

  // ---- what a spike is --------------------------------------------------------------

  /** The new value is at least `multiplier` times the old one, both compared as a ratio. */
  predicate Surged(before: real, now: real, multiplier: real) {
    before > 0.0 && now / before >= multiplier
  }

  /** Volume or trade count surged since the last statistics, or the price moved by the threshold. */
  predicate Surges(cfg: Config, volume: real, count: int, t: TickerStats) {
    || Surged(volume, t.quoteVolume, cfg.volumeMultiplier)
    || Surged(count as real, t.count as real, cfg.volumeMultiplier)
    || t.priceChangePct >= cfg.volatilityPct || t.priceChangePct <= -cfg.volatilityPct
  }

  lemma SurgedIff(before: real, now: real, multiplier: real)
    ensures Surged(before, now, multiplier) <==> before > 0.0 && now >= before * multiplier
  {
    if before > 0.0 {
      var q := now / before;
      assert q * before == now;
      if q >= multiplier {
        MulMonotone(multiplier, q, before);
      } else {
        assert (multiplier - q) * before > 0.0;
      }
    }
  }

  /** `p` is the only active pair of its display symbol. */
  ghost predicate OnlyPair(cfg: Config, active: seq<string>, p: string) {
    exists i :: 0 <= i < |active| && active[i] == p
                && forall j :: 0 <= j < |active| && j != i ==> cfg.baseOf(active[j]) != cfg.baseOf(p)
  }

  /** The record a symbol brings into a refresh; one just discovered has none to compare with. */
  function Before(u: Universe, b: string, p: string): Sym {
    if b in u.syms then u.syms[b] else Discovered(b, p)
  }

  lemma SyncedRecord(cfg: Config, m: Market, u: Universe, p: string)
    requires OnlyPair(cfg, m.active, p)
    ensures var mid, b := Synced(cfg, m, u), cfg.baseOf(p);
            b in mid.syms
            && mid.syms[b] == ListedSym(m.tickers, RankOf(m), p,
                                        if b in u.syms then DelistedSym(m.active, u.syms[b]) else Discovered(b, p))
  {
    hide ListedSym, RankOf, DelistedSym;
    var i :| 0 <= i < |m.active| && m.active[i] == p
             && forall j :: 0 <= j < |m.active| && j != i ==> cfg.baseOf(m.active[j]) != cfg.baseOf(p);
    ListedOnce(cfg, m.tickers, RankOf(m), Delisted(m.active, u), m.active, i);
  }

  /** With new statistics, spiking is a surge from the statistics of the record before. */
  lemma SpikingIsSurge(cfg: Config, m: Market, u: Universe, p: string)
    requires OnlyPair(cfg, m.active, p) && p in m.tickers
    ensures var mid, b := Synced(cfg, m, u), cfg.baseOf(p);
            b in mid.syms && mid.syms[b].status == Trading && mid.syms[b].pair == p
            && (IsSpiking(cfg, mid.syms[b])
                <==> Surges(cfg, Before(u, b, p).quoteVolume, Before(u, b, p).count, m.tickers[p]))
  {
    hide RankOf, Synced, Surged;
    SyncedRecord(cfg, m, u, p);
    var before, t := Before(u, cfg.baseOf(p), p), m.tickers[p];
    SurgedIff(before.quoteVolume, t.quoteVolume, cfg.volumeMultiplier);
    SurgedIff(before.count as real, t.count as real, cfg.volumeMultiplier);
  }

  /** Neither core nor meme nor in the top list. */
  predicate Unranked(cfg: Config, m: Market, p: string) {
    IsAlt(cfg, p) && p !in TopN(cfg, m)
  }

  /**
   What a refresh decides about an unranked symbol with one active pair and statistics:
   it is in the watched tier afterwards iff volume or trades surged or the price moved,
   or it was promoted before and its grace is not yet used up.
   */
  lemma PromotedIff(cfg: Config, m: Market, u: Universe, p: string)
    requires OnlyPair(cfg, m.active, p) && p in m.tickers && Unranked(cfg, m, p)
    ensures var v, b := Refreshed(cfg, m, u), cfg.baseOf(p);
            var before := Before(u, b, p);
            var surges := Surges(cfg, before.quoteVolume, before.count, m.tickers[p]);
            && b in v.syms && v.syms[b].pair == p && v.syms[b].status == Trading
            && (b in v.promoted <==> surges || (b in u.promoted && before.calmCycles + 1 < cfg.grace))
            && v.syms[b].tier == (if b in v.promoted then TIER_WATCH else TIER_REST)
            && ObsOf(cfg, m, u, b) == Rest(surges)
  {
    hide RankOf, Synced, Surges, IsSpiking, TopN;
    var b := cfg.baseOf(p);
    SyncedRecord(cfg, m, u, p);
    SpikingIsSurge(cfg, m, u, p);
    SyncKeepsCounter(cfg, m, u, b);
  }

  /** A cycle without new statistics repeats the observation of the last one that had them. */
  lemma StaleStatisticsRepeat(cfg: Config, m: Market, m': Market, u: Universe, p: string)
    requires OnlyPair(cfg, m.active, p) && p in m.tickers && Unranked(cfg, m, p)
    requires OnlyPair(cfg, m'.active, p) && p !in m'.tickers && Unranked(cfg, m', p)
    ensures ObsOf(cfg, m', Refreshed(cfg, m, u), cfg.baseOf(p)) == ObsOf(cfg, m, u, cfg.baseOf(p))
  {
    hide RankOf, TopN, VerdictOf, TagsOf, StaysPromoted;
    SyncedRecord(cfg, m, u, p);
    SyncedRecord(cfg, m', Refreshed(cfg, m, u), p);
    assert Synced(cfg, m, u).syms[cfg.baseOf(p)].pair == p;
  }

  // ---- the transition log --------------------------------------------------------------

  function ClassIn(u: Universe, b: string): string {
    if b in u.syms then u.syms[b].klass else "alt"
  }

  /** The pair the symbol traded under has left the exchange. */
  predicate LeftExchange(m: Market, u: Universe, b: string) {
    b in u.syms && u.syms[b].status == Trading && u.syms[b].pair !in m.active
  }

  /** Why a symbol moved between two tiers, as the log should tell it. */
  function ExpectedReason(promoted: bool, fromTier: int, toTier: int): Reason {
    if promoted then SpikeChange
    else if fromTier == TIER_WATCH && toTier == TIER_REST then DemoteSpike
    else RankingChange
  }

  lemma ChangeOf(cfg: Config, topN: set<string>, b: string, s: Sym, promoted: bool)
    requires s.status == Trading
    ensures var after, stays := AssignedSym(cfg, topN, b, s, promoted), StaysPromoted(cfg, topN, b, s, promoted);
            TierChangeOf(cfg, topN, b, s, promoted)
            == if after.tier == s.tier && after.klass == s.klass then []
               else [TierChange(b, s.pair, s.tier, after.tier, ExpectedReason(stays, s.tier, after.tier))]
  {
    hide IsSpiking;
  }

  lemma {:induction false} ListingStartsAlt(cfg: Config, tickers: map<string, TickerStats>, rankOf: map<string, nat>,
                                            u: Universe, pairs: seq<string>, b: string)
    ensures ClassIn(ListedAll(cfg, tickers, rankOf, u, pairs), b) == ClassIn(u, b)
  {
    if pairs != [] {
      ListingStartsAlt(cfg, tickers, rankOf, u, pairs[..|pairs| - 1], b);
    }
  }

  lemma FrozenUnchanged(cfg: Config, topN: set<string>, b: string, s: Sym, promoted: bool)
    requires s.status == Frozen
    ensures TierChangeOf(cfg, topN, b, s, promoted) == [] && AssignedSym(cfg, topN, b, s, promoted) == s
  {
  }

  /**
   The whole log of a cycle for one symbol: a delisting if its pair left the exchange,
   then one entry if it trades and its tier or class changed, under the pair it trades
   under now. The entry names a spike iff the symbol is promoted afterwards.
   */
  lemma CycleLog(cfg: Config, m: Market, u: Universe, b: string)
    requires u.WellFormed(cfg)
    ensures var v, t := Refreshed(cfg, m, u), TierIn(u, b);
            LogFor(Changes(cfg, m, u), b)
            == (if LeftExchange(m, u, b) then [TierChange(b, u.syms[b].pair, t, t, DelistedChange)] else [])
               + (if b in v.syms && v.syms[b].status == Trading && (v.syms[b].tier, v.syms[b].klass) != (t, ClassIn(u, b))
                  then [TierChange(b, v.syms[b].pair, t, v.syms[b].tier,
                                   ExpectedReason(b in v.promoted, t, v.syms[b].tier))]
                  else [])
  {
    hide TopN, RankOf, LogFor, AssignChanges, DelistChanges, ListedAll, VerdictOf, TierChangeOf, ExpectedReason, TagsOf;
    SyncedWellFormed(cfg, m, u);
    var mid, top := Synced(cfg, m, u), TopN(cfg, m);
    ListingKeepsTier(cfg, m.tickers, RankOf(m), Delisted(m.active, u), m.active, b);
    ListingStartsAlt(cfg, m.tickers, RankOf(m), Delisted(m.active, u), m.active, b);
    LogForConcat(DelistChanges(m.active, u, u.order), AssignChanges(cfg, top, mid, mid.order), b);
    DelistLogFor(m.active, u, u.order, b);
    AssignLogFor(cfg, top, mid, mid.order, b);
    if b in mid.syms && mid.syms[b].status == Trading {
      ChangeOf(cfg, top, b, mid.syms[b], b in mid.promoted);
    } else if b in mid.syms {
      FrozenUnchanged(cfg, top, b, mid.syms[b], b in mid.promoted);
    }
  }

  /** An input: an alt that only drops out of the top list is logged as a demoted spike. */
  lemma DropoutLooksLikeSpike() returns (cfg: Config, m: Market, u: Universe)
    ensures u.WellFormed(cfg) && u.promoted == {} && u.order == ["ABC"] && m.active == ["ABCUSDT"]
    ensures u.syms["ABC"].tier == TIER_WATCH && "spike" !in u.syms["ABC"].tags
    ensures LogFor(Changes(cfg, m, u), "ABC") == [TierChange("ABC", "ABCUSDT", TIER_WATCH, TIER_REST, DemoteSpike)]
  {
    hide TopN, LogFor, Changes, RankOf;
    var b, p := "ABC", "ABCUSDT";
    cfg := Config({}, {}, 1, 1, 2.0, 5.0, (s: string) => "ABC");
    m := Market([p], map[]);
    u := Universe([b], map[b := Discovered(b, p).(tier := TIER_WATCH, tags := {"alt"})], {});
    NothingRanked(cfg, m.active);
    assert m.active[0] == p && OnlyPair(cfg, m.active, p);
    SyncedRecord(cfg, m, u, p);
    CycleLog(cfg, m, u, b);
  }

  // ---- the watchlist ---------------------------------------------------------------------

  lemma KeptPairTrades(cfg: Config, m: Market, u: Universe, p: string)
    requires u.WellFormed(cfg) && KeepsItsRecord(cfg, m.active, p)
    ensures var v, b := Refreshed(cfg, m, u), cfg.baseOf(p);
            b in v.syms && v.syms[b].pair == p && v.syms[b].status == Trading
  {
    hide TopN, RankOf, ListedAll, VerdictOf, TagsOf, StaysPromoted;
    var i :| 0 <= i < |m.active| && m.active[i] == p && LastOfBase(cfg, m.active, i);
    ListedPairStays(cfg, m.tickers, RankOf(m), Delisted(m.active, u), m.active, i);
  }

  /**
   A pair is watched after a refresh iff it is the last active one of its display symbol
   and that is core, meme, or spike-promoted, or the pair is in the top list.
   */
  lemma WatchedIff(cfg: Config, m: Market, u: Universe, p: string)
    requires u.WellFormed(cfg)
    ensures var v, b := Refreshed(cfg, m, u), cfg.baseOf(p);
            p in WatchPairs(v)
            <==> KeepsItsRecord(cfg, m.active, p)
                 && (b in cfg.core || b in cfg.meme || p in TopN(cfg, m) || b in v.promoted)
  {
    hide Refreshed, KeepsItsRecord, TopN;
    var v, b := Refreshed(cfg, m, u), cfg.baseOf(p);
    RefreshedWellFormed(cfg, m, u);
    if p in WatchPairs(v) {
      var c :| c in v.syms && v.syms[c].status == Trading && v.syms[c].tier in {TIER_CORE, TIER_WATCH}
               && v.syms[c].pair == p;
      RefreshedTradesUnderLast(cfg, m, u, c);
      TiersCharacterised(cfg, m, u, c);
    }
    if KeepsItsRecord(cfg, m.active, p) {
      KeptPairTrades(cfg, m, u, p);
      TiersCharacterised(cfg, m, u, b);
    }
  }
}
