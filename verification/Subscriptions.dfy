/**
 Keeping the feed subscribed to exactly the watchlist: the reconciliation of three sets
 (the feed's own, the manager's record of it, and the watchlist), with calls that may
 raise half-way.
 */
module Subscriptions {
  import opened Tiering
  import SpikeHysteresis

  function WatchPairs(u: Universe): set<string> {
    set b | b in u.syms && u.syms[b].status == Trading && u.syms[b].tier in {TIER_CORE, TIER_WATCH} :: u.syms[b].pair
  }

  /** The feed's set, the manager's record, and whether the last sync went through. */
  datatype Books = Books(feed: set<string>, recorded: set<string>, ok: bool)

  /** One watchlist and how the two feed calls end, if they are made. */
  datatype Cycle = Cycle(watch: set<string>, subscribeOk: bool, unsubscribeOk: bool)

  /** The feed changes its set before a send can raise; the record moves only at the very end. */
  function Sync(b: Books, c: Cycle): Books {
    var added, dropped := c.watch - b.recorded, b.recorded - c.watch;
    var subscribed := b.feed + added;
    if added != {} && !c.subscribeOk then Books(subscribed, b.recorded, false)
    else if dropped != {} && !c.unsubscribeOk then Books(subscribed - dropped, b.recorded, false)
    else Books(subscribed - dropped, c.watch, true)
  }

  function Run(b: Books, cycles: seq<Cycle>): Books {
    if cycles == [] then b else Sync(Run(b, cycles[..|cycles| - 1]), cycles[|cycles| - 1])
  }

  /** While no call raises, all three sets are the same after every cycle: nothing leaks. */
  lemma {:induction false} SetsAgree(b: Books, cycles: seq<Cycle>)
    requires b.feed == b.recorded && cycles != []
    requires forall i :: 0 <= i < |cycles| ==> cycles[i].subscribeOk && cycles[i].unsubscribeOk
    ensures Run(b, cycles) == Books(cycles[|cycles| - 1].watch, cycles[|cycles| - 1].watch, true)
  {
    var front := cycles[..|cycles| - 1];
    if front != [] {
      SetsAgree(b, front);
    }
  }

  /** The syncs of a run of refresh cycles in which no feed call raises. */
  function SyncsOf(cfg: Config, u: Universe, ms: seq<Market>): seq<Cycle> {
    seq(|ms|, i requires 0 <= i < |ms| => Cycle(WatchPairs(SpikeHysteresis.Run(cfg, u, ms[..i + 1])), true, true))
  }

  /** Over any run of refreshes the feed and the record hold exactly the watchlist, with nothing leaked. */
  lemma RunIsSubscribed(cfg: Config, u: Universe, ms: seq<Market>, b: Books)
    requires b.feed == b.recorded && ms != []
    ensures var watch := WatchPairs(SpikeHysteresis.Run(cfg, u, ms)); Run(b, SyncsOf(cfg, u, ms)) == Books(watch, watch, true)
  {
    hide Refreshed, WatchPairs;
    SetsAgree(b, SyncsOf(cfg, u, ms));
    assert ms[..|ms| - 1 + 1] == ms;
  }

  /**
   After cycles in which calls may have raised, a sync that goes through repairs the
   feed exactly when everything the feed kept without a record is wanted again, and
   everything recorded but lost is not.
   */
  lemma SyncRepairsIff(b: Books, c: Cycle)
    requires Sync(b, c).ok
    ensures Sync(b, c).recorded == c.watch
    ensures Sync(b, c).feed == c.watch <==> b.feed - b.recorded <= c.watch && (b.recorded - b.feed) !! c.watch
  {
    var after, leaked, lost := Sync(b, c).feed, b.feed - b.recorded, b.recorded - b.feed;
    assert forall x :: x in after <==> (x in c.watch && x !in lost) || (x in leaked && x !in c.watch);
  }

  // ---- exactly what is leaked and lost -------------------------------------------------

  function After(b: Books, cycles: seq<Cycle>, j: nat): Books
    requires j < |cycles|
  {
    Run(b, cycles[..j + 1])
  }

  /** The cycles from `j + 1` on that went through all wanted `x`, or all did without it. */
  predicate SettledSince(b: Books, cycles: seq<Cycle>, x: string, j: nat, wanted: bool) {
    forall i :: j < i < |cycles| && After(b, cycles, i).ok ==> (x in cycles[i].watch <==> wanted)
  }

  /** In cycle `j` a call raised after `x` had been newly subscribed, and nothing has wanted it since. */
  predicate LeakedIn(b: Books, cycles: seq<Cycle>, x: string, j: nat)
    requires j < |cycles|
  {
    && !After(b, cycles, j).ok
    && x in cycles[j].watch && x !in Run(b, cycles[..j]).recorded
    && SettledSince(b, cycles, x, j, false)
  }

  /** In cycle `j` the unsubscribe call raised after `x` had been dropped, and everything has wanted it since. */
  predicate LostIn(b: Books, cycles: seq<Cycle>, x: string, j: nat)
    requires j < |cycles|
  {
    && !After(b, cycles, j).ok
    && (cycles[j].subscribeOk || cycles[j].watch <= Run(b, cycles[..j]).recorded)
    && x !in cycles[j].watch && x in Run(b, cycles[..j]).recorded
    && SettledSince(b, cycles, x, j, true)
  }

  lemma AfterFront(b: Books, cycles: seq<Cycle>, i: nat)
    requires i < |cycles| - 1
    ensures After(b, cycles[..|cycles| - 1], i) == After(b, cycles, i)
  {
    assert cycles[..|cycles| - 1][..i + 1] == cycles[..i + 1];
  }

  lemma AfterLast(b: Books, cycles: seq<Cycle>)
    requires cycles != []
    ensures After(b, cycles, |cycles| - 1) == Run(b, cycles)
  {
    assert cycles[..|cycles| - 1 + 1] == cycles;
  }

  lemma SettledStep(b: Books, cycles: seq<Cycle>, x: string, j: nat, wanted: bool)
    requires j < |cycles| - 1
    ensures SettledSince(b, cycles, x, j, wanted)
       <==> SettledSince(b, cycles[..|cycles| - 1], x, j, wanted)
            && (Run(b, cycles).ok ==> (x in cycles[|cycles| - 1].watch <==> wanted))
  {
    hide After;
    var n := |cycles| - 1;
    var front := cycles[..n];
    AfterLast(b, cycles);
    forall i | 0 <= i < n
      ensures After(b, front, i) == After(b, cycles, i)
    {
      AfterFront(b, cycles, i);
    }
  }

  /** An incident of an earlier cycle survives the last one exactly if that settled nothing. */
  lemma IncidentStep(b: Books, cycles: seq<Cycle>, x: string, j: nat)
    requires j < |cycles| - 1
    ensures var front, c, ok := cycles[..|cycles| - 1], cycles[|cycles| - 1], Run(b, cycles).ok;
            && (LeakedIn(b, cycles, x, j) <==> LeakedIn(b, front, x, j) && (ok ==> x !in c.watch))
            && (LostIn(b, cycles, x, j) <==> LostIn(b, front, x, j) && (ok ==> x in c.watch))
  {
    hide Run, SettledSince;
    var front := cycles[..|cycles| - 1];
    assert front[..j] == cycles[..j] && front[..j + 1] == cycles[..j + 1];
    SettledStep(b, cycles, x, j, false);
    SettledStep(b, cycles, x, j, true);
  }

  lemma LastIncident(b: Books, cycles: seq<Cycle>, x: string)
    requires cycles != []
    ensures var before, c, n := Run(b, cycles[..|cycles| - 1]), cycles[|cycles| - 1], |cycles| - 1;
            var ok := Run(b, cycles).ok;
            && (LeakedIn(b, cycles, x, n) <==> !ok && x in c.watch && x !in before.recorded)
            && (LostIn(b, cycles, x, n)
                <==> !ok && (c.subscribeOk || c.watch <= before.recorded) && x !in c.watch && x in before.recorded)
  {
    hide Run;
    assert cycles[..|cycles| - 1 + 1] == cycles;
  }

  predicate Leaked(b: Books, x: string) {
    x in b.feed && x !in b.recorded
  }

  predicate Lost(b: Books, x: string) {
    x in b.recorded && x !in b.feed
  }

  lemma NothingAdded(b: Books, c: Cycle)
    ensures c.watch - b.recorded == {} <==> c.watch <= b.recorded
  {
    if c.watch - b.recorded == {} {
      forall y | y in c.watch
        ensures y in b.recorded
      {
        assert y !in c.watch - b.recorded;
      }
    }
  }

  /** One sync: an incident appears when a call raises at the right moment, and goes when a sync settles it. */
  lemma SyncMoves(b: Books, c: Cycle, x: string)
    ensures var after := Sync(b, c);
            && (Leaked(after, x) <==>
                  || (Leaked(b, x) && (after.ok ==> x !in c.watch))
                  || (!after.ok && x in c.watch && x !in b.recorded))
            && (Lost(after, x) <==>
                  || (Lost(b, x) && (after.ok ==> x in c.watch))
                  || (!after.ok && (c.subscribeOk || c.watch <= b.recorded) && x !in c.watch && x in b.recorded))
  {
    NothingAdded(b, c);
    var dropped := b.recorded - c.watch;
    assert x in dropped ==> dropped != {};
  }

  /**
   Over any sequence of cycles, whichever calls raise: the feed keeps a name without a
   record, or the record a name the feed lost, exactly because of one incident since
   which no sync that went through has settled it.
   */
  lemma {:induction false} LeaksAndLosses(b: Books, cycles: seq<Cycle>, x: string)
    requires b.feed == b.recorded
    ensures Leaked(Run(b, cycles), x) <==> exists j :: 0 <= j < |cycles| && LeakedIn(b, cycles, x, j)
    ensures Lost(Run(b, cycles), x) <==> exists j :: 0 <= j < |cycles| && LostIn(b, cycles, x, j)
  {
    hide LeakedIn, LostIn, Sync;
    if cycles != [] {
      var front, n := cycles[..|cycles| - 1], |cycles| - 1;
      LeaksAndLosses(b, front, x);
      SyncMoves(Run(b, front), cycles[n], x);
      LastIncident(b, cycles, x);
      forall j | 0 <= j < n
        ensures LeakedIn(b, cycles, x, j) <==> LeakedIn(b, front, x, j) && (Run(b, cycles).ok ==> x !in cycles[n].watch)
        ensures LostIn(b, cycles, x, j) <==> LostIn(b, front, x, j) && (Run(b, cycles).ok ==> x in cycles[n].watch)
      {
        IncidentStep(b, cycles, x, j);
      }
    }
  }

  /**
   An input: a pair whose subscription raised and which is unwanted in the next cycle
   stays subscribed without a record, until some later cycle wants it again.
   */
  lemma RaisedSubscribeLeaks(pair: string)
    ensures var cycles := [Cycle({pair}, false, true), Cycle({}, true, true)];
            var end := Run(Books({}, {}, true), cycles);
            end.ok && end.recorded == {} && end.feed == {pair}
  {
    var cycles := [Cycle({pair}, false, true), Cycle({}, true, true)];
    var start := Books({}, {}, true);
    assert cycles[..1] == [cycles[0]] && cycles[..1][..0] == [];
    assert Run(start, cycles[..1]) == Sync(start, cycles[0]);
    assert {pair} - {} == {pair} && {} + {pair} == {pair};
    assert Sync(start, cycles[0]) == Books({pair}, {}, false);
  }
}
