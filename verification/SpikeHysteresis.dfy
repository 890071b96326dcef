/**
 Spike promotion refines history: whether a symbol is promoted is a property of what
 was observed about it in every past cycle, not of the counter that implements it.
 */
module SpikeHysteresis {
  import opened Ranking
  import opened Tiering

  /** What a cycle shows of one symbol: not trading, ranked above REST, or a REST symbol spiking or calm. */
  datatype Obs = Away | Ranked | Rest(spiking: bool)

  function ObsOf(cfg: Config, m: Market, u: Universe, b: string): Obs {
    var mid := Synced(cfg, m, u);
    if b !in mid.syms || mid.syms[b].status == Frozen then Away
    else if BaseTier(cfg, TopN(cfg, m), b, mid.syms[b].pair).0 != TIER_REST then Ranked
    else Rest(IsSpiking(cfg, mid.syms[b]))
  }

  /** The universe after a sequence of cycles. */
  function Run(cfg: Config, u: Universe, ms: seq<Market>): Universe {
    if ms == [] then u else Refreshed(cfg, ms[|ms| - 1], Run(cfg, u, ms[..|ms| - 1]))
  }

  /** What those cycles showed of one symbol. */
  function History(cfg: Config, u: Universe, ms: seq<Market>, b: string): (r: seq<Obs>)
    ensures |r| == |ms|
  {
    if ms == [] then []
    else
      var front := ms[..|ms| - 1];
      History(cfg, u, front, b) + [ObsOf(cfg, ms[|ms| - 1], Run(cfg, u, front), b)]
  }

  // ---- the history is about inputs ------------------------------------------------------

  /** A record without what promotion decides about it. */
  function Observed(s: Sym): Sym {
    s.(tier := TIER_REST, klass := "", tags := {}, calmCycles := 0)
  }

  /** The same symbols with the same data, whatever their tiers, tags, promotions and calm counts. */
  ghost predicate SameObserved(u: Universe, v: Universe) {
    && u.order == v.order && u.syms.Keys == v.syms.Keys
    && forall b :: b in u.syms ==> Observed(u.syms[b]) == Observed(v.syms[b])
  }

  lemma ListedSymObserved(tickers: map<string, TickerStats>, rankOf: map<string, nat>, pair: string, s: Sym, t: Sym)
    requires Observed(s) == Observed(t)
    ensures Observed(ListedSym(tickers, rankOf, pair, s)) == Observed(ListedSym(tickers, rankOf, pair, t))
  {
  }

  lemma ListedKeepsObserved(cfg: Config, tickers: map<string, TickerStats>, rankOf: map<string, nat>, u: Universe,
                            v: Universe, pair: string)
    requires SameObserved(u, v)
    ensures SameObserved(Listed(cfg, tickers, rankOf, u, pair), Listed(cfg, tickers, rankOf, v, pair))
  {
    hide ListedSym, Observed, Discovered;
    var base := cfg.baseOf(pair);
    if base in u.syms {
      ListedSymObserved(tickers, rankOf, pair, u.syms[base], v.syms[base]);
    }
  }

  lemma {:induction false} ListingKeepsObserved(cfg: Config, tickers: map<string, TickerStats>,
                                                rankOf: map<string, nat>, u: Universe, v: Universe, pairs: seq<string>)
    requires SameObserved(u, v)
    ensures SameObserved(ListedAll(cfg, tickers, rankOf, u, pairs), ListedAll(cfg, tickers, rankOf, v, pairs))
  {
    hide SameObserved, Listed;
    if pairs != [] {
      var front := pairs[..|pairs| - 1];
      ListingKeepsObserved(cfg, tickers, rankOf, u, v, front);
      ListedKeepsObserved(cfg, tickers, rankOf, ListedAll(cfg, tickers, rankOf, u, front),
                          ListedAll(cfg, tickers, rankOf, v, front), pairs[|pairs| - 1]);
    }
  }

  lemma DelistingKeepsObserved(active: seq<string>, u: Universe, v: Universe)
    requires SameObserved(u, v)
    ensures SameObserved(Delisted(active, u), Delisted(active, v))
  {
    forall b | b in u.syms
      ensures Observed(DelistedSym(active, u.syms[b])) == Observed(DelistedSym(active, v.syms[b]))
    {
      assert Observed(u.syms[b]) == Observed(v.syms[b]);
    }
  }

  lemma SyncKeepsObserved(cfg: Config, m: Market, u: Universe, v: Universe)
    requires SameObserved(u, v)
    ensures SameObserved(Synced(cfg, m, u), Synced(cfg, m, v))
  {
    hide RankOf, ListedAll, Delisted, SameObserved;
    DelistingKeepsObserved(m.active, u, v);
    ListingKeepsObserved(cfg, m.tickers, RankOf(m), Delisted(m.active, u), Delisted(m.active, v), m.active);
  }

  lemma AssigningKeepsObserved(cfg: Config, topN: set<string>, u: Universe)
    ensures SameObserved(Assigned(cfg, topN, u), u)
  {
    hide VerdictOf, TagsOf, StaysPromoted;
  }

  lemma {:induction false} RunKeepsObserved(cfg: Config, u: Universe, v: Universe, ms: seq<Market>)
    requires SameObserved(u, v)
    ensures SameObserved(Run(cfg, u, ms), Run(cfg, v, ms))
  {
    hide Synced, Assigned, TopN;
    if ms != [] {
      var front, m := ms[..|ms| - 1], ms[|ms| - 1];
      RunKeepsObserved(cfg, u, v, front);
      SyncKeepsObserved(cfg, m, Run(cfg, u, front), Run(cfg, v, front));
      AssigningKeepsObserved(cfg, TopN(cfg, m), Synced(cfg, m, Run(cfg, u, front)));
      AssigningKeepsObserved(cfg, TopN(cfg, m), Synced(cfg, m, Run(cfg, v, front)));
    }
  }

  /**
   The history depends on what the exchange shows and not on promotion: universes that
   differ only in tiers, tags, promotions and calm counts have the same one.
   */
  lemma {:induction false} HistoryIsObserved(cfg: Config, u: Universe, v: Universe, ms: seq<Market>, b: string)
    requires SameObserved(u, v)
    ensures History(cfg, u, ms, b) == History(cfg, v, ms, b)
  {
    hide Synced, TopN, BaseTier, Run;
    if ms != [] {
      var front, m := ms[..|ms| - 1], ms[|ms| - 1];
      HistoryIsObserved(cfg, u, v, front, b);
      RunKeepsObserved(cfg, u, v, front);
      SyncKeepsObserved(cfg, m, Run(cfg, u, front), Run(cfg, v, front));
    }
  }

  // ---- promotion, told from the history alone -----------------------------------------

  function CalmCount(obs: seq<Obs>): nat {
    if obs == [] then 0
    else CalmCount(obs[..|obs| - 1]) + if obs[|obs| - 1] == Rest(false) then 1 else 0
  }

  /** Since `from`, every traded cycle had base tier REST and fewer than the grace were calm. */
  predicate Sustained(obs: seq<Obs>, from: nat, grace: int)
    requires from <= |obs|
  {
    && (forall j :: from <= j < |obs| ==> obs[j] != Ranked)
    && CalmCount(obs[from..]) < (if grace > 1 then grace else 1)
  }

  /** Cycle `t - 1` was a spike, or `t` is the start and the symbol was loaded as promoted. */
  predicate Triggered(loaded: bool, obs: seq<Obs>, t: nat)
    requires t <= |obs|
  {
    if t == 0 then loaded else obs[t - 1] == Rest(true)
  }

  predicate PromotedBy(loaded: bool, obs: seq<Obs>, grace: int) {
    exists t :: 0 <= t <= |obs| && Triggered(loaded, obs, t) && Sustained(obs, t, grace)
  }

  // ---- the counter -----------------------------------------------------------------------

  datatype Counter = Counter(promoted: bool, calm: int)

  function CounterOf(u: Universe, b: string): Counter {
    Counter(b in u.promoted, if b in u.syms then u.syms[b].calmCycles else 0)
  }

  /** One cycle of the counter; the calm count is not reset when the symbol is ranked. */
  function Tick(grace: int, o: Obs, c: Counter): Counter {
    match o
    case Away => c
    case Ranked => c.(promoted := false)
    case Rest(true) => Counter(true, 0)
    case Rest(false) =>
      if !c.promoted then c
      else if c.calm + 1 >= grace then Counter(false, 0)
      else Counter(true, c.calm + 1)
  }

  lemma {:induction false} ListingKeepsCounter(cfg: Config, tickers: map<string, TickerStats>, rankOf: map<string, nat>,
                                               u: Universe, pairs: seq<string>, b: string)
    ensures CounterOf(ListedAll(cfg, tickers, rankOf, u, pairs), b) == CounterOf(u, b)
  {
    if pairs != [] {
      ListingKeepsCounter(cfg, tickers, rankOf, u, pairs[..|pairs| - 1], b);
    }
  }

  lemma SyncKeepsCounter(cfg: Config, m: Market, u: Universe, b: string)
    ensures CounterOf(Synced(cfg, m, u), b) == CounterOf(u, b)
  {
    ListingKeepsCounter(cfg, m.tickers, RankOf(m), Delisted(m.active, u), m.active, b);
  }

  lemma CycleTicks(cfg: Config, m: Market, u: Universe, b: string)
    ensures CounterOf(Refreshed(cfg, m, u), b) == Tick(cfg.grace, ObsOf(cfg, m, u, b), CounterOf(u, b))
  {
    hide Synced, IsSpiking, BaseTier, TopN;
    SyncKeepsCounter(cfg, m, u, b);
  }

  function Ticks(grace: int, obs: seq<Obs>, c: Counter): Counter {
    if obs == [] then c else Tick(grace, obs[|obs| - 1], Ticks(grace, obs[..|obs| - 1], c))
  }

  lemma {:induction false} RunTicks(cfg: Config, u: Universe, ms: seq<Market>, b: string)
    ensures CounterOf(Run(cfg, u, ms), b) == Ticks(cfg.grace, History(cfg, u, ms, b), CounterOf(u, b))
  {
    hide Refreshed, ObsOf, Tick;
    if ms != [] {
      var front, h := ms[..|ms| - 1], History(cfg, u, ms, b);
      RunTicks(cfg, u, front, b);
      CycleTicks(cfg, ms[|ms| - 1], Run(cfg, u, front), b);
      assert h[..|h| - 1] == History(cfg, u, front, b);
    }
  }

  /** The position right after the last spike, or 0. */
  function LastTrigger(obs: seq<Obs>): (t: nat)
    ensures t <= |obs|
    ensures t > 0 ==> obs[t - 1] == Rest(true)
    ensures forall j :: t <= j < |obs| ==> obs[j] != Rest(true)
  {
    if obs == [] then 0
    else if obs[|obs| - 1] == Rest(true) then |obs|
    else LastTrigger(obs[..|obs| - 1])
  }

  lemma CalmCountAppend(obs: seq<Obs>, o: Obs)
    ensures CalmCount(obs + [o]) == CalmCount(obs) + if o == Rest(false) then 1 else 0
  {
    assert (obs + [o])[..|obs|] == obs;
  }

  lemma {:induction false} CalmCountSuffix(obs: seq<Obs>, cut: nat)
    requires cut <= |obs|
    ensures CalmCount(obs[cut..]) <= CalmCount(obs)
  {
    if cut < |obs| {
      var n := |obs| - 1;
      CalmCountSuffix(obs[..n], cut);
      assert obs[cut..] == obs[..n][cut..] + [obs[n]];
      CalmCountAppend(obs[..n][cut..], obs[n]);
    }
  }

  lemma SustainedAppend(obs: seq<Obs>, o: Obs, t: nat, grace: int)
    requires t <= |obs|
    ensures CalmCount((obs + [o])[t..]) == CalmCount(obs[t..]) + if o == Rest(false) then 1 else 0
    ensures Sustained(obs + [o], t, grace)
       <==> Sustained(obs, t, grace) && o != Ranked
            && CalmCount((obs + [o])[t..]) < (if grace > 1 then grace else 1)
    ensures Sustained(obs, t, grace) ==> CalmCount(obs[t..]) < (if grace > 1 then grace else 1)
  {
    assert (obs + [o])[t..] == obs[t..] + [o];
    CalmCountAppend(obs[t..], o);
    assert forall j :: t <= j < |obs| ==> (obs + [o])[j] == obs[j];
  }

  lemma SustainedAtOnce(obs: seq<Obs>, grace: int)
    ensures Sustained(obs, |obs|, grace) && CalmCount(obs[|obs|..]) == 0
  {
  }

  lemma TickMeaning(grace: int, o: Obs, c: Counter, calm: nat, triggered: bool, before: bool, after: bool)
    requires c.promoted <==> triggered && before
    requires c.promoted ==> c.calm == calm
    requires after <==> before && o != Ranked
                        && calm + (if o == Rest(false) then 1 else 0) < (if grace > 1 then grace else 1)
    requires before ==> calm < (if grace > 1 then grace else 1)
    ensures o != Rest(true) ==> (Tick(grace, o, c).promoted <==> triggered && after)
    ensures o != Rest(true) && Tick(grace, o, c).promoted ==>
              Tick(grace, o, c).calm == calm + if o == Rest(false) then 1 else 0
  {
  }

  /** The counter holds exactly when the last trigger is sustained, and then counts the calm cycles since. */
  lemma {:induction false} TicksMeaning(grace: int, obs: seq<Obs>, loaded: bool, calm: int)
    requires loaded ==> calm == 0
    ensures var c, t := Ticks(grace, obs, Counter(loaded, calm)), LastTrigger(obs);
            && (c.promoted <==> Triggered(loaded, obs, t) && Sustained(obs, t, grace))
            && (c.promoted ==> c.calm == CalmCount(obs[t..]))
  {
    hide CalmCount, Sustained;
    SustainedAtOnce(obs, grace);
    if obs != [] {
      var n := |obs| - 1;
      var front, last := obs[..n], obs[n];
      var t := LastTrigger(front);
      TicksMeaning(grace, front, loaded, calm);
      SustainedAppend(front, last, t, grace);
      assert obs == front + [last];
      assert t > 0 ==> front[t - 1] == obs[t - 1];
      TickMeaning(grace, last, Ticks(grace, front, Counter(loaded, calm)), CalmCount(front[t..]),
                  Triggered(loaded, front, t), Sustained(front, t, grace), Sustained(obs, t, grace));
    }
  }

  /** An older sustained trigger makes the last one sustained too. */
  lemma LastTriggerSuffices(loaded: bool, obs: seq<Obs>, grace: int)
    ensures PromotedBy(loaded, obs, grace)
       <==> Triggered(loaded, obs, LastTrigger(obs)) && Sustained(obs, LastTrigger(obs), grace)
  {
    var last := LastTrigger(obs);
    forall t | 0 <= t <= |obs| && Triggered(loaded, obs, t) && Sustained(obs, t, grace)
      ensures Triggered(loaded, obs, last) && Sustained(obs, last, grace)
    {
      assert t <= last;
      CalmCountSuffix(obs[t..], last - t);
      assert obs[t..][last - t..] == obs[last..];
    }
  }

  /**
   After any sequence of cycles a symbol is spike-promoted exactly when some past spike
   (or being loaded with the spike tag) is still sustained: since then it was never
   ranked above REST and had fewer calm traded cycles than the grace. Cycles in which it
   did not trade do not count, and a stale calm count never shortens a later grace.
   A grace below 1 acts as 1.
   */
  lemma PromotionRefinesHistory(cfg: Config, u: Universe, ms: seq<Market>, b: string)
    requires b in u.promoted ==> CounterOf(u, b).calm == 0
    ensures b in Run(cfg, u, ms).promoted
       <==> PromotedBy(b in u.promoted, History(cfg, u, ms, b), cfg.grace)
  {
    var obs, c := History(cfg, u, ms, b), CounterOf(u, b);
    RunTicks(cfg, u, ms, b);
    TicksMeaning(cfg.grace, obs, c.promoted, c.calm);
    LastTriggerSuffices(c.promoted, obs, cfg.grace);
  }
}
