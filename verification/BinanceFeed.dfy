/** The feed object: every method is one step of the feed protocol between awaits. */
module BinanceFeeds {
  import opened Collections
  import FeedProtocol

  function UpperChar(c: char): char {
    if 'a' <= c <= 'z' then c - 'a' + 'A' else c
  }

  function Upper(s: string): (r: string)
    ensures |r| == |s|
  {
    seq(|s|, i requires 0 <= i < |s| => UpperChar(s[i]))
  }

  /** Upper-casing leaves no lower-case letter and changes nothing else. */
  lemma UpperMeaning(s: string, i: nat)
    requires i < |s|
    ensures var c := Upper(s)[i]; !('a' <= c <= 'z') && (c == s[i] || ('a' <= s[i] <= 'z' && c as int == s[i] as int - 32))
    ensures Upper(Upper(s)) == Upper(s)
  {
  }

  function UpperAll(names: set<string>): set<string> {
    set s | s in names :: Upper(s)
  }

  predicate AllUpper(names: set<string>) {
    forall s :: s in names ==> Upper(s) == s
  }

  lemma UpperAllFixed(names: set<string>)
    requires AllUpper(names)
    ensures UpperAll(names) == names
  {
    assert forall s :: s in names ==> Upper(s) in UpperAll(names);
  }

  class BinanceFeed {
    const maxReconnects: Option<nat>
    var symbols: set<string>
    var connection: FeedProtocol.Connection
    var attempt: nat
    var gaveUp: bool
    var connectCount: nat
    var resubscribeCount: nat
    var hadSession: bool
    var backoffHistory: seq<real>
    ghost var log: seq<FeedProtocol.Change>
    ghost var window: nat
    ghost var failures: seq<nat>
    ghost var cleanEnds: seq<nat>
    ghost var sessions: nat

    ghost function Model(): FeedProtocol.State
      reads this
    {
      FeedProtocol.State(symbols, connection, attempt, gaveUp, connectCount, resubscribeCount, hadSession,
                         backoffHistory, log, window, failures, cleanEnds, sessions)
    }

    constructor (symbols: set<string>, maxReconnects: Option<nat>)
      ensures this.maxReconnects == maxReconnects
      ensures Model() == FeedProtocol.Init(UpperAll(symbols))
    {
      this.maxReconnects := maxReconnects;
      this.symbols := UpperAll(symbols);
      connection, attempt, gaveUp, connectCount, resubscribeCount := FeedProtocol.Disconnected, 0, false, 0, 0;
      hadSession, backoffHistory := false, [];
      log, window, failures, cleanEnds, sessions := [], 0, [], [], 0;
    }

    /** Send a control frame if a socket is stored; `sendOk` says whether the send got through. */
    method SendSub(names: set<string>, subscribe: bool, sendOk: bool) returns (raised: bool)
      modifies `connection, `log
      ensures raised <==> old(connection).Session? && !sendOk
      ensures log == old(log) + [FeedProtocol.Change(names, old(connection).Session? && sendOk)]
      ensures connection == if old(connection).Session? && sendOk
                            then FeedProtocol.Session(old(connection).streams,
                                                      old(connection).pending + [FeedProtocol.Frame(subscribe, names)])
                            else old(connection)
    {
      log := log + [FeedProtocol.Change(names, connection.Session? && sendOk)];
      if !connection.Session? {
        return false;
      }
      if !sendOk {
        return true;
      }
      connection := FeedProtocol.Session(connection.streams, connection.pending + [FeedProtocol.Frame(subscribe, names)]);
      raised := false;
    }

    /** `raised` tells that the send failed; the set has changed all the same. */
    method Subscribe(names: set<string>, sendOk: bool) returns (raised: bool)
      modifies `symbols, `connection, `log
      ensures Model() == FeedProtocol.Step(old(Model()), maxReconnects, FeedProtocol.Subscribe(UpperAll(names), sendOk))
      ensures symbols == old(symbols) + UpperAll(names)
      ensures raised ==> !sendOk
    {
      var added := UpperAll(names) - symbols;
      if added == {} {
        assert forall x :: x in UpperAll(names) && x !in symbols ==> x in added;
        assert symbols == symbols + UpperAll(names);
        return false;
      }
      symbols := symbols + added;
      raised := SendSub(added, true, sendOk);
    }

    method Unsubscribe(names: set<string>, sendOk: bool) returns (raised: bool)
      modifies `symbols, `connection, `log
      ensures Model() == FeedProtocol.Step(old(Model()), maxReconnects, FeedProtocol.Unsubscribe(UpperAll(names), sendOk))
      ensures symbols == old(symbols) - UpperAll(names)
      ensures raised ==> !sendOk
    {
      var dropped := UpperAll(names) * symbols;
      if dropped == {} {
        assert forall x :: x in UpperAll(names) && x in symbols ==> x in dropped;
        assert symbols == symbols - UpperAll(names);
        return false;
      }
      symbols := symbols - dropped;
      raised := SendSub(dropped, false, sendOk);
    }

    /** The start of a connection: the URL is built from the current set. */
    method BuildUrl()
      requires connection.Disconnected? && !gaveUp
      modifies this
      ensures Model() == FeedProtocol.Step(old(Model()), maxReconnects, FeedProtocol.BuildUrl)
      ensures connection == FeedProtocol.Connecting(symbols)
    {
      connection := FeedProtocol.Connecting(symbols);
      connectCount := connectCount + 1;
      log, window := [], 0;
    }

    method StoreSocket()
      requires connection.Connecting?
      modifies this
      ensures Model() == FeedProtocol.Step(old(Model()), maxReconnects, FeedProtocol.Connected)
    {
      connection := FeedProtocol.Session(connection.url, []);
      window := |log|;
      if hadSession {
        resubscribeCount := resubscribeCount + 1;
      }
      hadSession := true;
      sessions := sessions + 1;
    }

    /** The connector or the session raised: record a delay, and give up past the limit. */
    method Lost(jitter: real)
      requires !connection.Disconnected?
      modifies this
      ensures Model() == FeedProtocol.Step(old(Model()), maxReconnects, FeedProtocol.Lost(jitter))
    {
      connection := FeedProtocol.Disconnected;
      var delay := FeedProtocol.NextBackoff(attempt, jitter);
      failures := failures + [attempt];
      attempt := attempt + 1;
      backoffHistory := backoffHistory + [delay];
      gaveUp := maxReconnects.Some? && attempt > maxReconnects.value;
    }

    /** The session ended without an error: the backoff starts over. */
    method Closed()
      requires connection.Session?
      modifies this
      ensures Model() == FeedProtocol.Step(old(Model()), maxReconnects, FeedProtocol.Closed)
    {
      connection := FeedProtocol.Disconnected;
      attempt := 0;
      cleanEnds := cleanEnds + [|failures|];
    }
  }
}
