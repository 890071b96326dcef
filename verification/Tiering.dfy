/**
 One refresh cycle of the symbol universe, step by step as the manager takes them:
 ranking, delistings, listings, tiers with spike promotion. Steps that treat every
 symbol on its own are written pointwise, the one that walks the exchange's pairs as a
 fold in their order.
 */
module Tiering {
  import opened Numbers
  import opened Collections
  import opened Sorting
  import opened Ranking

  const TIER_CORE := 0
  const TIER_WATCH := 1
  const TIER_REST := 2

  datatype Status = Trading | Frozen

  datatype Sym = Sym(
    base: string,
    pair: string,
    tier: int,
    klass: string,
    status: Status,
    tags: set<string>,
    rank: Option<nat>,
    quoteVolume: real,
    priceChangePct: real,
    lastPrice: real,
    count: int,
    prevQuoteVolume: Option<real>,
    prevCount: Option<int>,
    calmCycles: int)

  datatype Reason = RankingChange | SpikeChange | DemoteSpike | DelistedChange

  datatype TierChange = TierChange(base: string, pair: string, fromTier: int, toTier: int, reason: Reason)

  /** `baseOf` is the display symbol of an exchange pair. */
  datatype Config = Config(
    core: set<string>,
    meme: set<string>,
    tier1Size: int,
    grace: int,
    volumeMultiplier: real,
    volatilityPct: real,
    baseOf: string -> string)

  /** What one cycle fetches: the tradable pairs in exchange order, and the 24h statistics. */
  datatype Market = Market(active: seq<string>, tickers: map<string, TickerStats>)
  {
    predicate WellFormed() {
      Distinct(active) && forall p :: p in tickers ==> tickers[p].pair == p
    }
  }

  /** The known symbols in order of discovery, and the spike-promoted ones. */
  datatype Universe = Universe(order: seq<string>, syms: map<string, Sym>, promoted: set<string>)
  {
    /** Every symbol is listed once, under its own name. */
    ghost predicate Indexed() {
      && Distinct(order)
      && (forall b :: b in syms <==> b in order)
      && (forall b :: b in syms ==> syms[b].base == b)
    }

    /** And that name is the display symbol of its pair. */
    ghost predicate WellFormed(cfg: Config) {
      Indexed() && forall b :: b in syms ==> cfg.baseOf(syms[b].pair) == b
    }
  }

  // ---- ranking -----------------------------------------------------------------------

  predicate IsAlt(cfg: Config, pair: string) {
    cfg.baseOf(pair) !in cfg.core && cfg.baseOf(pair) !in cfg.meme
  }

  /** The statistics of the listed pairs that have any. */
  function StatsOf(tickers: map<string, TickerStats>, pairs: seq<string>): seq<TickerStats> {
    if pairs == [] then []
    else
      var p := pairs[|pairs| - 1];
      StatsOf(tickers, pairs[..|pairs| - 1]) + if p in tickers then [tickers[p]] else []
  }

  function AltPairs(cfg: Config, pairs: seq<string>): seq<string> {
    Filter(pairs, p => IsAlt(cfg, p))
  }

  function RankOf(m: Market): map<string, nat> {
    RankMap(RankByScore(StatsOf(m.tickers, m.active)))
  }

  function TopAlts(cfg: Config, m: Market): seq<TickerStats> {
    TakeFirst(RankByScore(StatsOf(m.tickers, AltPairs(cfg, m.active))), cfg.tier1Size)
  }

  function TopN(cfg: Config, m: Market): set<string> {
    set s | s in TopAlts(cfg, m) :: s.pair
  }

  // ---- delistings -----------------------------------------------------------------------

  predicate Delists(active: seq<string>, s: Sym) {
    s.pair !in active && s.status != Frozen
  }

  function DelistedSym(active: seq<string>, s: Sym): Sym {
    if Delists(active, s) then s.(status := Frozen) else s
  }

  function DelistChange(active: seq<string>, b: string, s: Sym): seq<TierChange> {
    if Delists(active, s) then [TierChange(b, s.pair, s.tier, s.tier, DelistedChange)] else []
  }

  function Delisted(active: seq<string>, u: Universe): Universe {
    u.(syms := map b | b in u.syms :: DelistedSym(active, u.syms[b]))
  }

  function DelistChanges(active: seq<string>, u: Universe, order: seq<string>): seq<TierChange>
    requires forall b :: b in order ==> b in u.syms
  {
    if order == [] then []
    else
      var b := order[|order| - 1];
      DelistChanges(active, u, order[..|order| - 1]) + DelistChange(active, b, u.syms[b])
  }

  // ---- listings --------------------------------------------------------------------------

  function Discovered(base: string, pair: string): Sym {
    Sym(base, pair, TIER_REST, "alt", Trading, {}, None, 0.0, 0.0, 0.0, 0, None, None, 0)
  }

  /** A symbol after its pair was seen on the exchange. */
  function ListedSym(tickers: map<string, TickerStats>, rankOf: map<string, nat>, pair: string, s: Sym): Sym {
    var rank := if pair in rankOf then Some(rankOf[pair]) else None;
    if pair !in tickers then s.(pair := pair, status := Trading, rank := rank)
    else
      var t := tickers[pair];
      Sym(s.base, pair, s.tier, s.klass, Trading, s.tags, rank, t.quoteVolume, t.priceChangePct, t.lastPrice, t.count,
          Some(s.quoteVolume), Some(s.count), s.calmCycles)
  }

  function Listed(cfg: Config, tickers: map<string, TickerStats>, rankOf: map<string, nat>, u: Universe, pair: string)
    : Universe
  {
    var base := cfg.baseOf(pair);
    var s := if base in u.syms then u.syms[base] else Discovered(base, pair);
    u.(order := if base in u.syms then u.order else u.order + [base],
       syms := u.syms[base := ListedSym(tickers, rankOf, pair, s)])
  }

  function ListedAll(cfg: Config, tickers: map<string, TickerStats>, rankOf: map<string, nat>, u: Universe,
                     pairs: seq<string>): Universe
  {
    if pairs == [] then u
    else Listed(cfg, tickers, rankOf, ListedAll(cfg, tickers, rankOf, u, pairs[..|pairs| - 1]), pairs[|pairs| - 1])
  }

  // ---- tiers -----------------------------------------------------------------------------

  function BaseTier(cfg: Config, topN: set<string>, b: string, pair: string): (int, string) {
    if b in cfg.core then (TIER_CORE, "core")
    else if b in cfg.meme then (TIER_WATCH, "meme")
    else if pair in topN then (TIER_WATCH, "alt")
    else (TIER_REST, "alt")
  }

  predicate IsSpiking(cfg: Config, s: Sym) {
    || (s.prevQuoteVolume.Some? && s.prevQuoteVolume.value > 0.0
        && s.quoteVolume >= s.prevQuoteVolume.value * cfg.volumeMultiplier)
    || (s.prevCount.Some? && s.prevCount.value > 0
        && s.count as real >= s.prevCount.value as real * cfg.volumeMultiplier)
    || Abs(s.priceChangePct) >= cfg.volatilityPct
  }

  /** Tier and class of a symbol, whether it is promoted from now on, and its calm cycles. */
  datatype Verdict = Verdict(tier: int, klass: string, promoted: bool, calmCycles: int)

  function SpikeLogic(cfg: Config, s: Sym, promoted: bool, baseTier: int, klass: string): Verdict {
    if baseTier != TIER_REST then Verdict(baseTier, klass, false, s.calmCycles)
    else if IsSpiking(cfg, s) then Verdict(TIER_WATCH, "alt", true, 0)
    else if promoted then
      if s.calmCycles + 1 >= cfg.grace then Verdict(TIER_REST, klass, false, 0)
      else Verdict(TIER_WATCH, "alt", true, s.calmCycles + 1)
    else Verdict(TIER_REST, klass, false, s.calmCycles)
  }

  function VerdictOf(cfg: Config, topN: set<string>, b: string, s: Sym, promoted: bool): Verdict {
    var (baseTier, klass) := BaseTier(cfg, topN, b, s.pair);
    SpikeLogic(cfg, s, promoted, baseTier, klass)
  }

  function TagsOf(cfg: Config, topN: set<string>, b: string, s: Sym, v: Verdict): set<string> {
    {v.klass} + if v.promoted && BaseTier(cfg, topN, b, s.pair).0 == TIER_REST then {"spike"} else {}
  }

  function AssignedSym(cfg: Config, topN: set<string>, b: string, s: Sym, promoted: bool): Sym {
    if s.status == Frozen then s
    else
      var v := VerdictOf(cfg, topN, b, s, promoted);
      s.(tags := TagsOf(cfg, topN, b, s, v), tier := v.tier, klass := v.klass, calmCycles := v.calmCycles)
  }

  predicate StaysPromoted(cfg: Config, topN: set<string>, b: string, s: Sym, promoted: bool) {
    if s.status == Frozen then promoted else VerdictOf(cfg, topN, b, s, promoted).promoted
  }

  function ReasonFor(baseTier: int, oldTier: int, tier: int): Reason {
    if tier == TIER_WATCH && baseTier == TIER_REST then SpikeChange
    else if oldTier == TIER_WATCH && tier == TIER_REST then DemoteSpike
    else RankingChange
  }

  function TierChangeOf(cfg: Config, topN: set<string>, b: string, s: Sym, promoted: bool): seq<TierChange> {
    if s.status == Frozen then []
    else
      var v := VerdictOf(cfg, topN, b, s, promoted);
      if v.tier == s.tier && v.klass == s.klass then []
      else
        [TierChange(b, s.pair, s.tier, v.tier, ReasonFor(BaseTier(cfg, topN, b, s.pair).0, s.tier, v.tier))]
  }

  function Assigned(cfg: Config, topN: set<string>, u: Universe): Universe {
    Universe(u.order,
             map b | b in u.syms :: AssignedSym(cfg, topN, b, u.syms[b], b in u.promoted),
             set b | b in u.promoted + u.syms.Keys
                     && (if b in u.syms then StaysPromoted(cfg, topN, b, u.syms[b], b in u.promoted) else b in u.promoted))
  }

  function AssignChanges(cfg: Config, topN: set<string>, u: Universe, order: seq<string>): seq<TierChange>
    requires forall b :: b in order ==> b in u.syms
  {
    if order == [] then []
    else
      var b := order[|order| - 1];
      AssignChanges(cfg, topN, u, order[..|order| - 1]) + TierChangeOf(cfg, topN, b, u.syms[b], b in u.promoted)
  }

  // ---- the cycle -----------------------------------------------------------------------------

  /** The universe between listings and tiering. */
  function Synced(cfg: Config, m: Market, u: Universe): Universe {
    ListedAll(cfg, m.tickers, RankOf(m), Delisted(m.active, u), m.active)
  }

  function Refreshed(cfg: Config, m: Market, u: Universe): Universe {
    Assigned(cfg, TopN(cfg, m), Synced(cfg, m, u))
  }

  lemma ListedWellFormed(cfg: Config, tickers: map<string, TickerStats>, rankOf: map<string, nat>, u: Universe,
                         pair: string)
    requires u.WellFormed(cfg)
    ensures Listed(cfg, tickers, rankOf, u, pair).WellFormed(cfg)
  {
    var t, base := Listed(cfg, tickers, rankOf, u, pair), cfg.baseOf(pair);
    assert forall b :: b in t.order <==> b in u.order || b == base;
  }

  lemma {:induction false} ListedAllWellFormed(cfg: Config, tickers: map<string, TickerStats>, rankOf: map<string, nat>,
                                               u: Universe, pairs: seq<string>)
    requires u.WellFormed(cfg)
    ensures ListedAll(cfg, tickers, rankOf, u, pairs).WellFormed(cfg)
    ensures ListedAll(cfg, tickers, rankOf, u, pairs).promoted == u.promoted
  {
    if pairs != [] {
      ListedAllWellFormed(cfg, tickers, rankOf, u, pairs[..|pairs| - 1]);
      ListedWellFormed(cfg, tickers, rankOf, ListedAll(cfg, tickers, rankOf, u, pairs[..|pairs| - 1]), pairs[|pairs| - 1]);
    }
  }

  lemma SyncedWellFormed(cfg: Config, m: Market, u: Universe)
    requires u.WellFormed(cfg)
    ensures Synced(cfg, m, u).WellFormed(cfg) && Synced(cfg, m, u).promoted == u.promoted
  {
    ListedAllWellFormed(cfg, m.tickers, RankOf(m), Delisted(m.active, u), m.active);
  }

  function Changes(cfg: Config, m: Market, u: Universe): seq<TierChange>
    requires u.WellFormed(cfg)
  {
    SyncedWellFormed(cfg, m, u);
    DelistChanges(m.active, u, u.order)
    + AssignChanges(cfg, TopN(cfg, m), Synced(cfg, m, u), Synced(cfg, m, u).order)
  }

  lemma RefreshedWellFormed(cfg: Config, m: Market, u: Universe)
    requires u.WellFormed(cfg)
    ensures Refreshed(cfg, m, u).WellFormed(cfg)
  {
    SyncedWellFormed(cfg, m, u);
  }

  // ---- persistence -----------------------------------------------------------------------------

  /** A row of the symbol table; metrics besides the rank are stored but never read back. */
  datatype Row = Row(symbol: string, base: string, klass: string, tier: int, status: Status, tags: set<string>,
                     rank: Option<nat>)

  function RowOf(s: Sym): Row {
    Row(s.pair, s.base, s.klass, s.tier, s.status, s.tags, s.rank)
  }

  /** The rows of a universe, by base. */
  function RowsOf(u: Universe): map<string, Row> {
    map b | b in u.syms :: RowOf(u.syms[b])
  }

  function LoadedSym(r: Row): Sym {
    Sym(r.base, r.symbol, r.tier, r.klass, r.status, r.tags, r.rank, 0.0, 0.0, 0.0, 0, None, None, 0)
  }

  /** Rows read back in the order of their ids; one row per base. */
  function Loaded(rows: seq<Row>): Universe {
    if rows == [] then Universe([], map[], {})
    else
      var u, r := Loaded(rows[..|rows| - 1]), rows[|rows| - 1];
      Universe(if r.base in u.syms then u.order else u.order + [r.base],
               u.syms[r.base := LoadedSym(r)],
               if "spike" in r.tags then u.promoted + {r.base} else u.promoted)
  }
}
