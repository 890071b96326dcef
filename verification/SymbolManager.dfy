/**
 The symbol manager: a dictionary of symbol records that each refresh cycle changes in
 place, the spike-promoted set, the persisted rows and the feed subscriptions.
 */
module SymbolManaging {
  import opened Collections
  import opened Ranking
  import opened Tiering
  import opened BinanceFeeds
  import opened Sorting
  import opened TieringTheorems
  import Subscriptions

  /** One symbol's record. */
  class SymbolState {
    const base: string
    var pair: string
    var tier: int
    var klass: string
    var status: Status
    var tags: set<string>
    var rank: Option<nat>
    var quoteVolume: real
    var priceChangePct: real
    var lastPrice: real
    var count: int
    var prevQuoteVolume: Option<real>
    var prevCount: Option<int>
    var calmCycles: int

    function Val(): Sym
      reads this
    {
      Sym(base, pair, tier, klass, status, tags, rank, quoteVolume, priceChangePct, lastPrice, count,
          prevQuoteVolume, prevCount, calmCycles)
    }

    constructor (s: Sym)
      ensures Val() == s && base == s.base
    {
      base, pair, tier, klass, status, tags, rank := s.base, s.pair, s.tier, s.klass, s.status, s.tags, s.rank;
      quoteVolume, priceChangePct, lastPrice, count := s.quoteVolume, s.priceChangePct, s.lastPrice, s.count;
      prevQuoteVolume, prevCount, calmCycles := s.prevQuoteVolume, s.prevCount, s.calmCycles;
    }

    /** Keep the last statistics for comparison and take over new ones. */
    method TakeStats(stats: TickerStats)
      modifies this
      ensures Val() == old(Val()).(prevQuoteVolume := Some(old(quoteVolume)), prevCount := Some(old(count)),
                                   quoteVolume := stats.quoteVolume, priceChangePct := stats.priceChangePct,
                                   lastPrice := stats.lastPrice, count := stats.count)
    {
      prevQuoteVolume := Some(quoteVolume);
      prevCount := Some(count);
      quoteVolume := stats.quoteVolume;
      priceChangePct := stats.priceChangePct;
      lastPrice := stats.lastPrice;
      count := stats.count;
    }

    /** Seen on the exchange under `newPair`: back to trading, with fresh statistics if there are any. */
    method List(newPair: string, tickers: map<string, TickerStats>, rankOf: map<string, nat>)
      modifies this
      ensures Val() == ListedSym(tickers, rankOf, newPair, old(Val()))
    {
      if status == Frozen {
        status := Trading;
      }
      pair := newPair;
      if newPair in tickers {
        TakeStats(tickers[newPair]);
      }
      rank := if newPair in rankOf then Some(rankOf[newPair]) else None;
    }
  }

  lemma {:induction false} ListingKeepsSymbols(cfg: Config, tickers: map<string, TickerStats>, rankOf: map<string, nat>,
                                               u: Universe, pairs: seq<string>)
    ensures u.syms.Keys <= ListedAll(cfg, tickers, rankOf, u, pairs).syms.Keys
  {
    hide ListedSym;
    if pairs != [] {
      ListingKeepsSymbols(cfg, tickers, rankOf, u, pairs[..|pairs| - 1]);
    }
  }

  /** A table of known symbols becomes exactly the rows of the refreshed universe; tags still agree. */
  lemma RefreshKeepsBooks(cfg: Config, m: Market, u: Universe, table: map<string, Tiering.Row>)
    requires u.WellFormed(cfg)
    ensures table.Keys <= u.syms.Keys ==> table + RowsOf(Refreshed(cfg, m, u)) == RowsOf(Refreshed(cfg, m, u))
    ensures TagsAgree(u) ==> TagsAgree(Refreshed(cfg, m, u))
  {
    hide TopN, RankOf, AssignedSym, StaysPromoted, DelistedSym, ListedAll, Tiering.RowOf, TagsAgree;
    ListingKeepsSymbols(cfg, m.tickers, RankOf(m), Delisted(m.active, u), m.active);
    if TagsAgree(u) {
      RefreshKeepsTags(cfg, m, u);
    }
  }

  /** Whether the symbol of a transition has a row. */
  function Resolved(table: map<string, Tiering.Row>): TierChange -> bool {
    (c: TierChange) => c.base in table
  }

  lemma {:induction false} DelistChangesAreKnown(active: seq<string>, u: Universe, order: seq<string>)
    requires forall b :: b in order ==> b in u.syms
    ensures forall c :: c in DelistChanges(active, u, order) ==> c.base in order
  {
    if order != [] {
      DelistChangesAreKnown(active, u, order[..|order| - 1]);
    }
  }

  lemma {:induction false} AssignChangesAreKnown(cfg: Config, topN: set<string>, u: Universe, order: seq<string>)
    requires forall b :: b in order ==> b in u.syms
    ensures forall c :: c in AssignChanges(cfg, topN, u, order) ==> c.base in order
  {
    hide VerdictOf;
    if order != [] {
      AssignChangesAreKnown(cfg, topN, u, order[..|order| - 1]);
    }
  }

  /** Every logged transition belongs to a symbol that is known after the cycle. */
  lemma ChangedAreKnown(cfg: Config, m: Market, u: Universe)
    requires u.WellFormed(cfg)
    ensures forall c :: c in Changes(cfg, m, u) ==> c.base in Refreshed(cfg, m, u).syms
  {
    hide TopN, RankOf, DelistedSym, AssignedSym, StaysPromoted, DelistChanges, AssignChanges, ListedAll;
    SyncedWellFormed(cfg, m, u);
    DelistChangesAreKnown(m.active, u, u.order);
    ListingKeepsSymbols(cfg, m.tickers, RankOf(m), Delisted(m.active, u), m.active);
    AssignChangesAreKnown(cfg, TopN(cfg, m), Synced(cfg, m, u), Synced(cfg, m, u).order);
  }

  /** No transition of a cycle is dropped for want of a row. */
  lemma RefreshLogsKnown(cfg: Config, m: Market, u: Universe, table: map<string, Tiering.Row>)
    requires u.WellFormed(cfg)
    ensures Filter(Changes(cfg, m, u), Resolved(table + RowsOf(Refreshed(cfg, m, u)))) == Changes(cfg, m, u)
  {
    hide Refreshed, Changes, Tiering.RowOf;
    ChangedAreKnown(cfg, m, u);
    FilterAll(Changes(cfg, m, u), Resolved(table + RowsOf(Refreshed(cfg, m, u))));
  }

  /** Only active pairs are watched after a refresh. */
  lemma RefreshedPairsActive(cfg: Config, m: Market, u: Universe)
    ensures Subscriptions.WatchPairs(Refreshed(cfg, m, u)) <= set p | p in m.active
  {
    hide Synced, TopN, VerdictOf, TagsOf;
    forall p | p in Subscriptions.WatchPairs(Refreshed(cfg, m, u))
      ensures p in m.active
    {
      var v := Refreshed(cfg, m, u);
      var b :| b in v.syms && v.syms[b].status == Trading && v.syms[b].tier in {TIER_CORE, TIER_WATCH} && v.syms[b].pair == p;
      TradingIsActive(cfg, m, u, b);
    }
  }

  lemma PlacedWellFormed(cfg: Config, u: Universe, base: string, s: Sym, promoted: set<string>)
    requires u.Indexed() && s.base == base
    ensures var v := Universe(if base in u.syms then u.order else u.order + [base], u.syms[base := s], promoted);
            v.Indexed() && (u.WellFormed(cfg) && cfg.baseOf(s.pair) == base ==> v.WellFormed(cfg))
  {
    assert forall b :: b in u.order + [base] <==> b in u.order || b == base;
  }

  // ---- how far a pass over the records has come ----------------------------------------

  /** The universe after the delisting pass has reached the symbols `ks`. */
  ghost function DelistedSoFar(active: seq<string>, u: Universe, ks: seq<string>): Universe
    requires forall b :: b in ks ==> b in u.syms
  {
    u.(syms := Put(u.syms, b requires b in u.syms => DelistedSym(active, u.syms[b]), ks))
  }

  lemma DelistingStarts(active: seq<string>, u: Universe)
    ensures DelistedSoFar(active, u, []) == u && DelistChanges(active, u, []) == []
  {
  }

  lemma DelistingGoesOn(active: seq<string>, u: Universe, i: nat)
    requires u.Indexed() && i < |u.order|
    ensures var b, v := u.order[i], DelistedSoFar(active, u, u.order[..i]);
            && b in v.syms && v.syms[b] == u.syms[b]
            && DelistedSoFar(active, u, u.order[..i + 1]) == v.(syms := v.syms[b := DelistedSym(active, u.syms[b])])
            && DelistChanges(active, u, u.order[..i + 1])
            == DelistChanges(active, u, u.order[..i]) + DelistChange(active, b, u.syms[b])
  {
    hide DelistedSym, DelistChange, Put;
    PutNext(u.syms, b requires b in u.syms => DelistedSym(active, u.syms[b]), u.order, i);
    assert u.order[..i + 1][..i] == u.order[..i];
  }

  lemma DelistingEnds(active: seq<string>, u: Universe)
    requires u.Indexed()
    ensures DelistedSoFar(active, u, u.order) == Delisted(active, u)
  {
    hide DelistedSym, Put;
    PutAt(u.syms, b requires b in u.syms => DelistedSym(active, u.syms[b]), u.order);
    assert DelistedSoFar(active, u, u.order).syms == Delisted(active, u).syms;
  }

  /** The universe after the tiering pass has reached the symbols `ks`. */
  ghost function AssignedSoFar(cfg: Config, topN: set<string>, u: Universe, ks: seq<string>): Universe
    requires forall b :: b in ks ==> b in u.syms
  {
    Universe(u.order,
             Put(u.syms, b requires b in u.syms => AssignedSym(cfg, topN, b, u.syms[b], b in u.promoted), ks),
             Toggle(u.promoted, b requires b in u.syms => StaysPromoted(cfg, topN, b, u.syms[b], b in u.promoted), ks))
  }

  lemma TieringStarts(cfg: Config, topN: set<string>, u: Universe)
    ensures AssignedSoFar(cfg, topN, u, []) == u && AssignChanges(cfg, topN, u, []) == []
  {
  }

  lemma TieringGoesOn(cfg: Config, topN: set<string>, u: Universe, i: nat)
    requires u.Indexed() && i < |u.order|
    ensures var b, v := u.order[i], AssignedSoFar(cfg, topN, u, u.order[..i]);
            && b in v.syms && v.syms[b] == u.syms[b] && (b in v.promoted <==> b in u.promoted)
            && AssignedSoFar(cfg, topN, u, u.order[..i + 1])
            == Universe(v.order,
                        v.syms[b := AssignedSym(cfg, topN, b, u.syms[b], b in u.promoted)],
                        if StaysPromoted(cfg, topN, b, u.syms[b], b in u.promoted) then v.promoted + {b}
                        else v.promoted - {b})
            && AssignChanges(cfg, topN, u, u.order[..i + 1])
            == AssignChanges(cfg, topN, u, u.order[..i]) + TierChangeOf(cfg, topN, b, u.syms[b], b in u.promoted)
  {
    hide AssignedSym, StaysPromoted, TierChangeOf, Put, Toggle;
    PutNext(u.syms, b requires b in u.syms => AssignedSym(cfg, topN, b, u.syms[b], b in u.promoted), u.order, i);
    ToggleNext(u.promoted, b requires b in u.syms => StaysPromoted(cfg, topN, b, u.syms[b], b in u.promoted), u.order, i);
    assert u.order[..i + 1][..i] == u.order[..i];
  }

  lemma TieringEnds(cfg: Config, topN: set<string>, u: Universe)
    requires u.Indexed()
    ensures AssignedSoFar(cfg, topN, u, u.order) == Assigned(cfg, topN, u)
  {
    hide AssignedSym, StaysPromoted, Put, Toggle;
    PutAt(u.syms, b requires b in u.syms => AssignedSym(cfg, topN, b, u.syms[b], b in u.promoted), u.order);
    ToggleAt(u.promoted, b requires b in u.syms => StaysPromoted(cfg, topN, b, u.syms[b], b in u.promoted), u.order);
    assert AssignedSoFar(cfg, topN, u, u.order).syms == Assigned(cfg, topN, u).syms;
    assert AssignedSoFar(cfg, topN, u, u.order).promoted == Assigned(cfg, topN, u).promoted;
  }

  /** The table after the records of the symbols `ks` have been written. */
  ghost function WrittenSoFar(table: map<string, Tiering.Row>, u: Universe, ks: seq<string>): map<string, Tiering.Row>
    requires forall b :: b in ks ==> b in u.syms
  {
    Put(table, b requires b in u.syms => Tiering.RowOf(u.syms[b]), ks)
  }

  lemma WritingStarts(table: map<string, Tiering.Row>, u: Universe)
    ensures WrittenSoFar(table, u, []) == table
  {
  }

  lemma WritingGoesOn(table: map<string, Tiering.Row>, u: Universe, i: nat)
    requires u.Indexed() && i < |u.order|
    ensures WrittenSoFar(table, u, u.order[..i + 1])
         == WrittenSoFar(table, u, u.order[..i])[u.order[i] := Tiering.RowOf(u.syms[u.order[i]])]
  {
    hide Tiering.RowOf, Put;
    PutNext(table, b requires b in u.syms => Tiering.RowOf(u.syms[b]), u.order, i);
  }

  lemma WritingEnds(table: map<string, Tiering.Row>, u: Universe)
    requires u.Indexed()
    ensures WrittenSoFar(table, u, u.order) == table + RowsOf(u)
  {
    hide Tiering.RowOf, Put;
    PutAt(table, b requires b in u.syms => Tiering.RowOf(u.syms[b]), u.order);
  }

  lemma ListedSymKeepsBase(tickers: map<string, TickerStats>, rankOf: map<string, nat>, pair: string, s: Sym)
    ensures ListedSym(tickers, rankOf, pair, s).base == s.base && ListedSym(tickers, rankOf, pair, s).pair == pair
  {
  }

  class SymbolManager {
    const cfg: Config
    const feed: BinanceFeed?
    var states: map<string, SymbolState>
    var order: seq<string>
    var spikePromoted: set<string>
    var subscribed: set<string>
    var refreshCount: nat
    var lastTierChanges: seq<TierChange>
    var symbolTable: map<string, Row>
    var tierChangeTable: seq<TierChange>

    /** The record of `b` as a value. */
    function At(b: string): Sym
      requires b in states
      reads `states, states[b]
    {
      states[b].Val()
    }

    ghost function View(): Universe
      reads `states, `order, `spikePromoted, states.Values
    {
      Universe(order, map b | b in states :: At(b), spikePromoted)
    }

    /** Every record is listed once, under its own name. */
    ghost predicate Sound()
      reads `states, `order, `spikePromoted, states.Values
    {
      && View().Indexed()
      && forall b :: b in states ==> states[b].base == b
    }

    /** And that name is the display symbol of its pair. */
    ghost predicate Valid()
      reads `states, `order, `spikePromoted, states.Values
    {
      Sound() && View().WellFormed(cfg)
    }

    /** What a sound manager's view says about its fields. */
    lemma Shape()
      requires Sound()
      ensures View().order == order && View().promoted == spikePromoted && View().syms.Keys == states.Keys
      ensures View().Indexed() && (Valid() <==> View().WellFormed(cfg))
      ensures forall b :: b in order ==> b in states
      ensures forall b :: b in states ==> states[b].base == b == At(b).base && At(b) == View().syms[b]
    {
    }

    /** One record changed and no other. */
    twostate lemma Touched(new b: string)
      requires old(Valid()) && b in states && states == old(states) && order == old(order)
      requires forall o :: o in states.Values && o != states[b] ==> unchanged(o)
      requires At(b).base == b && cfg.baseOf(At(b).pair) == b
      ensures Valid()
      ensures View() == Universe(order, old(View()).syms[b := At(b)], spikePromoted)
    {
      hide SymbolState.Val;
      forall k | k in states && k != b
        ensures At(k) == old(At(k))
      {
        assert states[k].base == k && states[k] in states.Values;
        assert unchanged(states[k]);
      }
      assert View().syms == old(View()).syms[b := At(b)];
    }

    /** A manager over the symbol table earlier runs have left, or an empty one. */
    constructor (cfg: Config, feed: BinanceFeed?, allSymbols: set<string>, symbolTable: map<string, Tiering.Row>)
      ensures Valid() && View() == Universe([], map[], {}) && this.cfg == cfg && this.feed == feed
      ensures subscribed == UpperAll(allSymbols) && this.symbolTable == symbolTable && tierChangeTable == []
    {
      this.cfg, this.feed, this.symbolTable := cfg, feed, symbolTable;
      states, order, spikePromoted := map[], [], {};
      subscribed := UpperAll(allSymbols);
      refreshCount, lastTierChanges, tierChangeTable := 0, [], [];
    }

    /** One record put in place and no other changed. */
    twostate lemma Placed(base: string, new s: SymbolState)
      requires old(Sound()) && s.base == base && states == old(states)[base := s]
      requires order == if base in old(states) then old(order) else old(order) + [base]
      requires forall o :: o in old(states).Values ==> unchanged(o)
      requires s.Val().base == base
      ensures Sound() && (old(Valid()) && cfg.baseOf(s.Val().pair) == base ==> Valid())
      ensures View() == Universe(order, old(View()).syms[base := s.Val()], spikePromoted)
    {
      hide SymbolState.Val, Tiering.Universe.WellFormed, Tiering.Universe.Indexed;
      forall k | k in old(states) && k != base
        ensures At(k) == old(At(k))
      {
        assert old(states)[k] in old(states).Values;
        assert unchanged(states[k]);
      }
      assert View().syms == old(View()).syms[base := s.Val()];
      PlacedWellFormed(cfg, old(View()), base, s.Val(), spikePromoted);
    }

    method LoadRow(row: Tiering.Row)
      requires Sound()
      modifies `states, `order, `spikePromoted
      ensures Sound() && row.base in states && fresh(states[row.base]) && states == old(states)[row.base := states[row.base]]
      ensures var u, base := old(View()), row.base;
              View() == Universe(if base in u.syms then u.order else u.order + [base],
                                 u.syms[base := LoadedSym(row)],
                                 if "spike" in row.tags then u.promoted + {base} else u.promoted)
    {
      hide SymbolManager.View, SymbolManager.Sound, SymbolState.Val, Tiering.Universe.WellFormed, Tiering.Universe.Indexed;
      Shape();
      var loaded := new SymbolState(LoadedSym(row));
      if row.base !in states {
        order := order + [row.base];
      }
      states := states[row.base := loaded];
      if "spike" in row.tags {
        spikePromoted := spikePromoted + {row.base};
      }
      Placed(row.base, loaded);
    }

    /** Carry the rows of an earlier run over into a manager that has none. */
    method LoadExisting(rows: seq<Tiering.Row>)
      requires Sound() && View() == Universe([], map[], {})
      modifies `states, `order, `spikePromoted
      ensures Sound() && View() == Loaded(rows)
      ensures Conforms(cfg, rows) ==> Valid() && TagsAgree(View())
      ensures forall b :: b in states ==> fresh(states[b])
    {
      hide SymbolManager.View, SymbolManager.Sound, SymbolState.Val, LoadedSym, Tiering.Universe.WellFormed;
      hide Tiering.Universe.Indexed, TagsAgree, Conforms;
      Shape();
      for i := 0 to |rows|
        invariant Sound() && View() == Loaded(rows[..i])
        invariant forall b :: b in states ==> fresh(states[b])
      {
        assert rows[..i + 1][..i] == rows[..i];
        LoadRow(rows[i]);
      }
      assert rows[..|rows|] == rows;
      if Conforms(cfg, rows) {
        LoadedAgrees(cfg, rows);
      }
    }

    method MarkDelisting(b: string, active: seq<string>) returns (change: seq<TierChange>)
      requires Valid() && b in states
      modifies states[b]
      ensures Valid()
      ensures View() == old(View()).(syms := old(View()).syms[b := DelistedSym(active, old(View()).syms[b])])
      ensures change == DelistChange(active, b, old(View()).syms[b])
    {
      hide SymbolManager.View, SymbolManager.Sound;
      Shape();
      var state := states[b];
      change := [];
      if state.pair !in active && state.status != Frozen {
        state.status := Frozen;
        change := [TierChange(b, state.pair, state.tier, state.tier, DelistedChange)];
      }
      Touched(b);
    }

    /** Freeze what is no longer tradable, logging each delisting. */
    method MarkDelistings(active: seq<string>) returns (changes: seq<TierChange>)
      requires Valid()
      modifies states.Values
      ensures Valid() && View() == Delisted(active, old(View()))
      ensures changes == DelistChanges(active, old(View()), order)
    {
      hide SymbolManager.View, SymbolManager.Sound, SymbolManager.At, SymbolState.Val;
      hide DelistedSoFar, Delisted, DelistedSym, DelistChange, DelistChanges, Tiering.Universe.WellFormed;
      changes := [];
      ghost var u := View();
      Shape();
      DelistingStarts(active, u);
      assert order[..0] == [];
      for i := 0 to |order|
        invariant Valid() && View() == DelistedSoFar(active, u, order[..i])
        invariant changes == DelistChanges(active, u, order[..i])
      {
        DelistingGoesOn(active, u, i);
        var change := MarkDelisting(order[i], active);
        changes := changes + change;
      }
      assert order[..|order|] == order;
      DelistingEnds(active, u);
    }

    method ListKnown(base: string, pair: string, tickers: map<string, TickerStats>, rankOf: map<string, nat>)
      requires Valid() && base in states && cfg.baseOf(pair) == base
      modifies states[base]
      ensures Valid()
      ensures View() == old(View()).(syms := old(View()).syms[base := ListedSym(tickers, rankOf, pair, old(View()).syms[base])])
    {
      hide SymbolManager.View, SymbolManager.Sound, ListedSym, SymbolState.Val, Tiering.Universe.WellFormed;
      Shape();
      var state := states[base];
      ListedSymKeepsBase(tickers, rankOf, pair, At(base));
      state.List(pair, tickers, rankOf);
      Touched(base);
    }

    method Discover(base: string, pair: string)
      requires Valid() && base !in states && cfg.baseOf(pair) == base
      modifies `states, `order
      ensures Valid() && base in states && fresh(states[base]) && states == old(states)[base := states[base]]
      ensures View() == Universe(old(View()).order + [base], old(View()).syms[base := Discovered(base, pair)], spikePromoted)
    {
      hide SymbolManager.View, SymbolManager.Sound, SymbolState.Val;
      Shape();
      var created := new SymbolState(Discovered(base, pair));
      states := states[base := created];
      order := order + [base];
      Placed(base, created);
    }

    /** Discover or relist the symbol of one pair, and take over its statistics. */
    method ListPair(pair: string, tickers: map<string, TickerStats>, rankOf: map<string, nat>)
      requires Valid()
      modifies `states, `order, states.Values
      ensures Valid() && View() == Listed(cfg, tickers, rankOf, old(View()), pair)
      ensures forall b :: b in old(states) ==> b in states && states[b] == old(states[b])
      ensures forall b :: b in states && b !in old(states) ==> fresh(states[b])
    {
      hide SymbolManager.View, SymbolManager.Sound, ListedSym, SymbolState.Val, Tiering.Universe.WellFormed;
      hide Tiering.Universe.Indexed, Discovered;
      var base := cfg.baseOf(pair);
      Shape();
      if base !in states {
        Discover(base, pair);
      }
      ListKnown(base, pair, tickers, rankOf);
    }

    /** Walk the tradable pairs in exchange order. */
    method SyncListings(active: seq<string>, tickers: map<string, TickerStats>, rankOf: map<string, nat>)
      requires Valid()
      modifies `states, `order, states.Values
      ensures Valid() && View() == ListedAll(cfg, tickers, rankOf, old(View()), active)
      ensures forall b :: b in old(states) ==> b in states && states[b] == old(states[b])
      ensures forall b :: b in states && b !in old(states) ==> fresh(states[b])
    {
      hide Listed, SymbolManager.View, SymbolManager.Sound;
      ghost var before := View();
      for i := 0 to |active|
        invariant Valid() && View() == ListedAll(cfg, tickers, rankOf, before, active[..i])
        invariant forall b :: b in old(states) ==> b in states && states[b] == old(states[b])
        invariant forall b :: b in states && b !in old(states) ==> fresh(states[b])
      {
        ListPair(active[i], tickers, rankOf);
        assert active[..i + 1][..i] == active[..i];
      }
      assert active[..|active|] == active;
    }

    /** Promotion and demotion of one trading record. */
    method ApplySpikeLogic(b: string, baseTier: int, klass: string) returns (tier: int, klass': string)
      requires b in states && states[b].base == b
      modifies `spikePromoted, states[b]
      ensures var v := SpikeLogic(cfg, old(At(b)), b in old(spikePromoted), baseTier, klass);
              && tier == v.tier && klass' == v.klass && At(b) == old(At(b)).(calmCycles := v.calmCycles)
              && spikePromoted == if v.promoted then old(spikePromoted) + {b} else old(spikePromoted) - {b}
    {
      hide IsSpiking;
      var state := states[b];
      if baseTier != TIER_REST {
        spikePromoted := spikePromoted - {b};
        return baseTier, klass;
      }
      if IsSpiking(cfg, At(b)) {
        spikePromoted := spikePromoted + {b};
        state.calmCycles := 0;
        return TIER_WATCH, "alt";
      }
      if b in spikePromoted {
        state.calmCycles := state.calmCycles + 1;
        if state.calmCycles >= cfg.grace {
          spikePromoted := spikePromoted - {b};
          state.calmCycles := 0;
          return TIER_REST, klass;
        }
        assert spikePromoted == spikePromoted + {b};
        return TIER_WATCH, "alt";
      }
      assert spikePromoted == spikePromoted - {b};
      return TIER_REST, klass;
    }

    /** Tier one trading record, logging a change of tier or class. */
    method AssignTier(b: string, topN: set<string>) returns (change: seq<TierChange>)
      requires b in states && states[b].base == b && states[b].status == Trading
      modifies `spikePromoted, states[b]
      ensures At(b) == AssignedSym(cfg, topN, b, old(At(b)), b in old(spikePromoted))
      ensures spikePromoted == if StaysPromoted(cfg, topN, b, old(At(b)), b in old(spikePromoted))
                               then old(spikePromoted) + {b} else old(spikePromoted) - {b}
      ensures change == TierChangeOf(cfg, topN, b, old(At(b)), b in old(spikePromoted))
    {
      hide IsSpiking, ReasonFor;
      var state := states[b];
      var oldTier, oldKlass := state.tier, state.klass;
      var (baseTier, baseKlass) := BaseTier(cfg, topN, b, state.pair);
      var tier, klass := ApplySpikeLogic(b, baseTier, baseKlass);
      var tags := {klass};
      if b in spikePromoted && baseTier == TIER_REST {
        tags := tags + {"spike"};
      }
      state.tags := tags;
      change := [];
      if tier != oldTier || klass != oldKlass {
        change := [TierChange(b, state.pair, oldTier, tier, ReasonFor(baseTier, oldTier, tier))];
      }
      state.tier, state.klass := tier, klass;
    }

    method AssignUnlessFrozen(b: string, topN: set<string>) returns (change: seq<TierChange>)
      requires Valid() && b in states
      modifies `spikePromoted, states[b]
      ensures Valid() && change == TierChangeOf(cfg, topN, b, old(View()).syms[b], b in old(View()).promoted)
      ensures var u := old(View());
              View() == Universe(u.order,
                                 u.syms[b := AssignedSym(cfg, topN, b, u.syms[b], b in u.promoted)],
                                 if StaysPromoted(cfg, topN, b, u.syms[b], b in u.promoted) then u.promoted + {b}
                                 else u.promoted - {b})
    {
      hide SymbolManager.View, SymbolManager.Sound, VerdictOf, TagsOf, Tiering.BaseTier;
      ghost var u := View();
      Shape();
      assert At(b) == u.syms[b];
      if states[b].status == Frozen {
        change := [];
        assert spikePromoted == if b in u.promoted then u.promoted + {b} else u.promoted - {b};
      } else {
        change := AssignTier(b, topN);
      }
      assert At(b) == AssignedSym(cfg, topN, b, u.syms[b], b in u.promoted);
      Touched(b);
    }

    method AssignTiers(topN: set<string>) returns (changes: seq<TierChange>)
      requires Valid()
      modifies `spikePromoted, states.Values
      ensures Valid() && View() == Assigned(cfg, topN, old(View()))
      ensures changes == AssignChanges(cfg, topN, old(View()), order)
    {
      hide SymbolManager.View, SymbolManager.Sound, SymbolManager.At, SymbolState.Val;
      hide AssignedSoFar, Assigned, AssignedSym, StaysPromoted, TierChangeOf, AssignChanges, Tiering.Universe.WellFormed;
      changes := [];
      ghost var u := View();
      Shape();
      TieringStarts(cfg, topN, u);
      assert order[..0] == [];
      for i := 0 to |order|
        invariant Valid() && View() == AssignedSoFar(cfg, topN, u, order[..i])
        invariant changes == AssignChanges(cfg, topN, u, order[..i])
      {
        TieringGoesOn(cfg, topN, u, i);
        var change := AssignUnlessFrozen(order[i], topN);
        changes := changes + change;
      }
      assert order[..|order|] == order;
      TieringEnds(cfg, topN, u);
    }

    /** Upsert every record into the symbol table. */
    method PersistAll()
      requires Valid()
      modifies `symbolTable
      ensures symbolTable == old(symbolTable) + RowsOf(View())
    {
      hide SymbolManager.View, SymbolManager.Sound, SymbolManager.At, SymbolState.Val;
      hide WrittenSoFar, RowsOf, Tiering.RowOf, Tiering.Universe.WellFormed;
      ghost var u := View();
      Shape();
      WritingStarts(symbolTable, u);
      assert order[..0] == [];
      for i := 0 to |order|
        invariant symbolTable == WrittenSoFar(old(symbolTable), u, order[..i])
      {
        WritingGoesOn(old(symbolTable), u, i);
        symbolTable := symbolTable[order[i] := Tiering.RowOf(At(order[i]))];
      }
      assert order[..|order|] == order;
      WritingEnds(old(symbolTable), u);
    }

    /** Log the transitions of every symbol that has a row. */
    method PersistTierChanges(changes: seq<TierChange>)
      modifies `tierChangeTable
      ensures tierChangeTable == old(tierChangeTable) + Filter(changes, Resolved(symbolTable))
    {
      for i := 0 to |changes|
        invariant tierChangeTable == old(tierChangeTable) + Filter(changes[..i], Resolved(symbolTable))
      {
        assert changes[..i + 1][..i] == changes[..i];
        if changes[i].base in symbolTable {
          tierChangeTable := tierChangeTable + [changes[i]];
        }
      }
      assert changes[..|changes|] == changes;
    }

    /** The pairs of the tier 0 and tier 1 symbols that trade. */
    function Watchlist(): set<string>
      reads `states, states.Values
    {
      set b | b in states && At(b).status == Trading && At(b).tier in {TIER_CORE, TIER_WATCH} :: At(b).pair
    }

    lemma WatchlistIsView()
      ensures Watchlist() == Subscriptions.WatchPairs(View())
    {
      hide SymbolState.Val, SymbolManager.At;
      var u := View();
      assert forall b :: b in states ==> At(b) == u.syms[b];
      forall p
        ensures p in Watchlist() <==> p in Subscriptions.WatchPairs(u)
      {
        if p in Watchlist() {
          var b :| b in states && At(b).status == Trading && At(b).tier in {TIER_CORE, TIER_WATCH} && At(b).pair == p;
          assert b in u.syms;
        }
        if p in Subscriptions.WatchPairs(u) {
          var b :| b in u.syms && u.syms[b].status == Trading && u.syms[b].tier in {TIER_CORE, TIER_WATCH}
                   && u.syms[b].pair == p;
          assert b in states;
        }
      }
    }

    /** Bring the feed from what it was subscribed to over to the watchlist. */
    method SyncFeed(sendOk: (bool, bool)) returns (ok: bool, ghost cycle: Subscriptions.Cycle)
      requires feed != null
      modifies `subscribed, feed
      ensures cycle.watch == Watchlist() == old(Watchlist())
      ensures subscribed == if ok then Watchlist() else old(subscribed)
      ensures ok ==> feed.symbols == old(feed.symbols) + UpperAll(Watchlist() - old(subscribed))
                                     - UpperAll(old(subscribed) - Watchlist())
      ensures AllUpper(Watchlist()) && AllUpper(old(subscribed)) ==>
                (Subscriptions.Books(feed.symbols, subscribed, ok)
                 == Subscriptions.Sync(Subscriptions.Books(old(feed.symbols), old(subscribed), true), cycle))
      ensures sendOk == (true, true) ==> ok && cycle.subscribeOk && cycle.unsubscribeOk
    {
      hide SymbolManager.Watchlist;
      var watch := Watchlist();
      var added, dropped := watch - subscribed, subscribed - watch;
      cycle := Subscriptions.Cycle(watch, true, true);
      if AllUpper(watch) && AllUpper(subscribed) {
        UpperAllFixed(added);
        UpperAllFixed(dropped);
      }
      if added != {} {
        var raised := feed.Subscribe(added, sendOk.0);
        if raised {
          cycle := Subscriptions.Cycle(watch, false, true);
          return false, cycle;
        }
      }
      if dropped != {} {
        var raised := feed.Unsubscribe(dropped, sendOk.1);
        if raised {
          cycle := Subscriptions.Cycle(watch, true, false);
          return false, cycle;
        }
      }
      subscribed := watch;
      ok := true;
    }

    /**
     The feed and the record moved as one reconciliation with the watchlist says; if they
     agreed before and no call raised, both are the watchlist now.
     */
    ghost predicate FeedReconciled(feedBefore: set<string>, recordedBefore: set<string>, sendOk: (bool, bool), ok: bool)
      requires feed != null
      reads `subscribed, `states, `order, `spikePromoted, states.Values, feed
    {
      && (exists c: Subscriptions.Cycle ::
            && c.watch == Subscriptions.WatchPairs(View())
            && (sendOk == (true, true) ==> c.subscribeOk && c.unsubscribeOk)
            && Subscriptions.Books(feed.symbols, subscribed, ok)
               == Subscriptions.Sync(Subscriptions.Books(feedBefore, recordedBefore, true), c))
      && (sendOk == (true, true) && feedBefore == recordedBefore ==>
            ok && feed.symbols == subscribed == Subscriptions.WatchPairs(View()))
    }

    /** Rank, delist, list and tier. */
    method Retier(m: Market) returns (changes: seq<TierChange>)
      requires Valid()
      modifies `states, `order, `spikePromoted, states.Values
      ensures Valid() && View() == Refreshed(cfg, m, old(View()))
      ensures old(View()).WellFormed(cfg) && changes == Changes(cfg, m, old(View()))
    {
      hide SymbolManager.View, SymbolManager.Sound, SymbolState.Val;
      hide Assigned, Delisted, ListedAll, RankOf, TopN, DelistChanges, AssignChanges, Tiering.Universe.WellFormed;
      Shape();
      SyncedWellFormed(cfg, m, View());
      var rankOf, topN := RankOf(m), TopN(cfg, m);
      changes := MarkDelistings(m.active);
      SyncListings(m.active, m.tickers, rankOf);
      Shape();
      var retiered := AssignTiers(topN);
      changes := changes + retiered;
    }

    /** The tables and counters after a cycle with these transitions. */
    method Persist(m: Market, changes: seq<TierChange>, ghost u: Universe)
      requires Valid() && u.WellFormed(cfg) && View() == Refreshed(cfg, m, u) && changes == Changes(cfg, m, u)
      modifies `symbolTable, `tierChangeTable, `refreshCount, `lastTierChanges
      ensures symbolTable == old(symbolTable) + RowsOf(View())
      ensures old(symbolTable).Keys <= u.syms.Keys ==> symbolTable == RowsOf(View())
      ensures tierChangeTable == old(tierChangeTable) + changes
      ensures refreshCount == old(refreshCount) + 1 && lastTierChanges == changes
    {
      hide SymbolManager.View, SymbolManager.Sound, Refreshed, Changes, RowsOf, TagsAgree;
      hide Tiering.Universe.WellFormed, Tiering.Universe.Indexed;
      PersistAll();
      RefreshLogsKnown(cfg, m, u, old(symbolTable));
      RefreshKeepsBooks(cfg, m, u, old(symbolTable));
      PersistTierChanges(changes);
      refreshCount := refreshCount + 1;
      lastTierChanges := changes;
    }

    /**
     One refresh cycle: rank, delist, list, tier, persist, log, and re-subscribe the feed.
     `ok` is false when a feed call raised, after everything but the subscriptions is done.
     */
    method RefreshUniverse(m: Market, sendOk: (bool, bool)) returns (changes: seq<TierChange>, ok: bool)
      requires Valid()
      modifies this, states.Values, feed
      ensures Valid() && View() == Refreshed(cfg, m, old(View()))
      ensures old(View()).WellFormed(cfg) && changes == Changes(cfg, m, old(View())) == lastTierChanges
      ensures refreshCount == old(refreshCount) + 1
      ensures symbolTable == old(symbolTable) + RowsOf(View())
      ensures old(symbolTable).Keys <= old(View()).syms.Keys ==> symbolTable == RowsOf(View())
      ensures TagsAgree(old(View())) ==> TagsAgree(View())
      ensures tierChangeTable == old(tierChangeTable) + changes
      ensures feed == null ==> ok && subscribed == old(subscribed)
      ensures subscribed == if feed != null && ok then Subscriptions.WatchPairs(View()) else old(subscribed)
      ensures feed != null && AllUpper(set p | p in m.active) && AllUpper(old(subscribed)) ==>
                AllUpper(subscribed) && FeedReconciled(old(feed.symbols), old(subscribed), sendOk, ok)
    {
      hide SymbolManager.View, SymbolManager.Sound, SymbolManager.Watchlist, SymbolManager.At, SymbolState.Val;
      hide Refreshed, Changes, RowsOf, Subscriptions.WatchPairs, TagsAgree, Subscriptions.Sync;
      hide Tiering.Universe.WellFormed, Tiering.Universe.Indexed;
      ghost var u := View();
      Shape();
      RefreshedPairsActive(cfg, m, u);
      changes := Retier(m);
      RefreshKeepsBooks(cfg, m, u, map[]);
      Persist(m, changes, u);
      ok := true;
      WatchlistIsView();
      if feed != null {
        ghost var cycle;
        ok, cycle := SyncFeed(sendOk);
      }
    }
  }

  lemma RestoredRows(v: Universe, u: Universe)
    requires Restores(v, u) && v.Indexed() && u.Indexed()
    ensures RowsOf(v) == RowsOf(u)
  {
    forall b | b in u.syms
      ensures Tiering.RowOf(v.syms[b]) == Tiering.RowOf(u.syms[b])
    {
      assert v.syms[b].base == b == u.syms[b].base;
    }
  }

  lemma RowsConform(cfg: Config, u: Universe)
    requires u.WellFormed(cfg)
    ensures (forall b :: b in u.order ==> b in RowsOf(u)) && Conforms(cfg, Rows(u, u.order))
  {
    var rows := Rows(u, u.order);
    forall i | 0 <= i < |rows|
      ensures rows[i].base == u.order[i] && cfg.baseOf(rows[i].symbol) == u.order[i]
    {
      assert u.order[i] in u.syms;
    }
  }

  /** Loading the table of a universe restores it, and the table stays the rows of what was loaded. */
  lemma TableRestores(cfg: Config, u: Universe)
    requires u.WellFormed(cfg) && TagsAgree(u)
    ensures var v := Loaded(Rows(u, u.order));
            Restores(v, u) && v.WellFormed(cfg) && TagsAgree(v) && RowsOf(v) == RowsOf(u)
  {
    hide Loaded, Rows, Restores, TagsAgree, RowsOf;
    RestartRoundTrip(cfg, u);
    RestoredRows(Loaded(Rows(u, u.order)), u);
  }

  /**
   A process that starts over from the symbol table of another: the new manager has the
   universe of the old one, metrics and calm counts aside, and keeps the table as it is.
   */
  method Restart(previous: SymbolManager, feed: BinanceFeed?, allSymbols: set<string>) returns (m: SymbolManager)
    requires previous.Valid() && TagsAgree(previous.View()) && previous.symbolTable == RowsOf(previous.View())
    ensures fresh(m) && m.cfg == previous.cfg && m.Valid() && TagsAgree(m.View())
    ensures Restores(m.View(), previous.View())
    ensures m.symbolTable == previous.symbolTable == RowsOf(m.View())
  {
    hide SymbolManager.View, SymbolManager.Sound, Loaded, TagsAgree, Restores, RowsOf, Listing, Conforms;
    hide Tiering.Universe.WellFormed, Tiering.Universe.Indexed;
    ghost var u := previous.View();
    previous.Shape();
    RowsConform(previous.cfg, u);
    TableRestores(previous.cfg, u);
    m := new SymbolManager(previous.cfg, feed, allSymbols, previous.symbolTable);
    m.LoadExisting(Listing(previous.symbolTable, previous.order));
  }
}
