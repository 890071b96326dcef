/**
 The reconnecting feed as a protocol: changes of the subscription set interleave with
 building a stream URL, opening a socket, applying control frames and losing the
 connection. The streams a socket carries are compared with the subscription set in
 every run.
 */
module FeedProtocol {
  import opened Numbers
  import opened Collections

  /** A SUBSCRIBE or UNSUBSCRIBE control frame. */
  datatype Frame = Frame(subscribe: bool, names: set<string>)

  datatype Connection =
    | Disconnected
    | Connecting(url: set<string>)
    | Session(streams: set<string>, pending: seq<Frame>)

  /** Names whose membership changed, and whether a frame said so. */
  datatype Change = Change(names: set<string>, sent: bool)

  /**
   `log` lists the changes since the current URL was built, `window` how many of them
   came before its socket was stored. `failures` records, for each backoff delay, how
   many failures in a row preceded it, and `cleanEnds`, for each session that ended
   without an error, how many failures there had been in all.
   */
  datatype State = State(
    symbols: set<string>,
    conn: Connection,
    attempt: nat,
    gaveUp: bool,
    connectCount: nat,
    resubscribeCount: nat,
    hadSession: bool,
    backoff: seq<real>,
    log: seq<Change>,
    window: nat,
    failures: seq<nat>,
    cleanEnds: seq<nat>,
    sessions: nat)

  datatype Event =
    | Subscribe(names: set<string>, sendOk: bool)
    | Unsubscribe(names: set<string>, sendOk: bool)
    | BuildUrl
    | Connected
    | Lost(jitter: real)
    | Closed
    | ServerApplies

  function Init(symbols: set<string>): State {
    State(symbols, Disconnected, 0, false, 0, 0, false, [], [], 0, [], [], 0)
  }

  // ---- backoff ---------------------------------------------------------------------

  const BACKOFF_STEPS: seq<real> := [1.0, 2.0, 5.0, 10.0, 20.0, 30.0]

  function BackoffBase(attempt: nat): real {
    BACKOFF_STEPS[if attempt < |BACKOFF_STEPS| - 1 then attempt else |BACKOFF_STEPS| - 1]
  }

  /** The delay before the next attempt; `jitter` is a random number in [0, 1). */
  function NextBackoff(attempt: nat, jitter: real): real {
    BackoffBase(attempt) + jitter * (BackoffBase(attempt) * 0.25)
  }

  // ---- the steps -----------------------------------------------------------------------

  function Changed(s: State, names: set<string>, subscribe: bool, sendOk: bool): State {
    if names == {} then s
    else
      var sent := s.conn.Session? && sendOk;
      s.(symbols := if subscribe then s.symbols + names else s.symbols - names,
         conn := if sent then Session(s.conn.streams, s.conn.pending + [Frame(subscribe, names)]) else s.conn,
         log := s.log + [Change(names, sent)])
  }

  function Failed(s: State, maxReconnects: Option<nat>, jitter: real): State {
    s.(conn := Disconnected,
       attempt := s.attempt + 1,
       backoff := s.backoff + [NextBackoff(s.attempt, jitter)],
       failures := s.failures + [s.attempt],
       gaveUp := maxReconnects.Some? && s.attempt + 1 > maxReconnects.value)
  }

  function Applied(streams: set<string>, f: Frame): set<string> {
    if f.subscribe then streams + f.names else streams - f.names
  }

  function Step(s: State, maxReconnects: Option<nat>, e: Event): State {
    match e
    case Subscribe(names, sendOk) => Changed(s, names - s.symbols, true, sendOk)
    case Unsubscribe(names, sendOk) => Changed(s, names * s.symbols, false, sendOk)
    case BuildUrl =>
      if s.conn.Disconnected? && !s.gaveUp then
        s.(conn := Connecting(s.symbols), connectCount := s.connectCount + 1, log := [], window := 0)
      else s
    case Connected =>
      if s.conn.Connecting? then
        s.(conn := Session(s.conn.url, []), window := |s.log|, hadSession := true, sessions := s.sessions + 1,
           resubscribeCount := if s.hadSession then s.resubscribeCount + 1 else s.resubscribeCount)
      else s
    case Lost(jitter) => if s.conn.Disconnected? then s else Failed(s, maxReconnects, jitter)
    case Closed =>
      if s.conn.Session? then s.(conn := Disconnected, attempt := 0, cleanEnds := s.cleanEnds + [|s.failures|])
      else s
    case ServerApplies =>
      if s.conn.Session? && s.conn.pending != [] then
        s.(conn := Session(Applied(s.conn.streams, s.conn.pending[0]), s.conn.pending[1..]))
      else s
  }

  /** The streams once every pending frame has been applied in order. */
  function Settled(streams: set<string>, pending: seq<Frame>): set<string>
    decreases |pending|
  {
    if pending == [] then streams else Settled(Applied(streams, pending[0]), pending[1..])
  }

  function Run(symbols: set<string>, maxReconnects: Option<nat>, es: seq<Event>): State {
    if es == [] then Init(symbols)
    else Step(Run(symbols, maxReconnects, es[..|es| - 1]), maxReconnects, es[|es| - 1])
  }

  // ---- what a socket carries ------------------------------------------------------------

  /** An odd number of unsent changes of `x` since the last sent one, or since the URL. */
  predicate Drifted(log: seq<Change>, x: string) {
    if log == [] then false
    else
      var front, last := log[..|log| - 1], log[|log| - 1];
      if x !in last.names then Drifted(front, x) else !last.sent && !Drifted(front, x)
  }

  /** What the connection will carry once settled. */
  function Carried(c: Connection): set<string>
    requires !c.Disconnected?
  {
    if c.Connecting? then c.url else Settled(c.streams, c.pending)
  }

  ghost predicate Tracked(s: State) {
    !s.conn.Disconnected? ==>
      && s.window <= |s.log|
      && (s.conn.Connecting? ==> forall i :: 0 <= i < |s.log| ==> !s.log[i].sent)
      && forall x: string :: ((x in Carried(s.conn)) != (x in s.symbols)) <==> Drifted(s.log, x)
  }

  lemma {:induction false} SettledAppend(streams: set<string>, pending: seq<Frame>, f: Frame)
    ensures Settled(streams, pending + [f]) == Applied(Settled(streams, pending), f)
    decreases |pending|
  {
    if pending != [] {
      SettledAppend(Applied(streams, pending[0]), pending[1..], f);
      assert (pending + [f])[1..] == pending[1..] + [f];
    } else {
      assert ([] + [f])[1..] == [];
    }
  }

  lemma DriftedAppend(log: seq<Change>, c: Change, x: string)
    ensures Drifted(log + [c], x) <==> if x !in c.names then Drifted(log, x) else !c.sent && !Drifted(log, x)
  {
    assert (log + [c])[..|log|] == log;
  }

  lemma ChangedKeepsTracked(s: State, names: set<string>, subscribe: bool, sendOk: bool)
    requires Tracked(s)
    requires if subscribe then names !! s.symbols else names <= s.symbols
    ensures Tracked(Changed(s, names, subscribe, sendOk))
  {
    var t := Changed(s, names, subscribe, sendOk);
    if names != {} && !s.conn.Disconnected? {
      var c := Change(names, s.conn.Session? && sendOk);
      if c.sent {
        SettledAppend(s.conn.streams, s.conn.pending, Frame(subscribe, names));
      }
      forall x: string
        ensures ((x in Carried(t.conn)) != (x in t.symbols)) <==> Drifted(t.log, x)
      {
        DriftedAppend(s.log, c, x);
        assert ((x in Carried(s.conn)) != (x in s.symbols)) <==> Drifted(s.log, x);
      }
    }
  }

  lemma StepKeepsTracked(s: State, maxReconnects: Option<nat>, e: Event)
    requires Tracked(s)
    ensures Tracked(Step(s, maxReconnects, e))
  {
    match e
    case Subscribe(names, sendOk) => ChangedKeepsTracked(s, names - s.symbols, true, sendOk);
    case Unsubscribe(names, sendOk) => ChangedKeepsTracked(s, names * s.symbols, false, sendOk);
    case _ =>
  }

  lemma {:induction false} RunTracked(symbols: set<string>, maxReconnects: Option<nat>, es: seq<Event>)
    ensures Tracked(Run(symbols, maxReconnects, es))
  {
    if es != [] {
      RunTracked(symbols, maxReconnects, es[..|es| - 1]);
      StepKeepsTracked(Run(symbols, maxReconnects, es[..|es| - 1]), maxReconnects, es[|es| - 1]);
    }
  }

  /**
   In every run: once pending frames are applied, a stored socket and the subscription
   set differ on exactly the names whose changes went unsent an odd number of times
   since the last change of that name that was sent, or since the URL was built.
   */
  lemma StreamsTrackSymbols(symbols: set<string>, maxReconnects: Option<nat>, es: seq<Event>, x: string)
    requires Run(symbols, maxReconnects, es).conn.Session?
    ensures var s := Run(symbols, maxReconnects, es);
            ((x in Settled(s.conn.streams, s.conn.pending)) != (x in s.symbols)) <==> Drifted(s.log, x)
  {
    RunTracked(symbols, maxReconnects, es);
  }

  lemma {:induction false} DriftNeedsUnsentChange(log: seq<Change>, x: string)
    requires Drifted(log, x)
    ensures exists i :: 0 <= i < |log| && x in log[i].names && !log[i].sent
  {
    var front, last := log[..|log| - 1], log[|log| - 1];
    if x !in last.names {
      DriftNeedsUnsentChange(front, x);
      var i :| 0 <= i < |front| && x in front[i].names && !front[i].sent;
      assert log[i] == front[i];
    } else {
      assert x in log[|log| - 1].names;
    }
  }

  /**
   If no control frame failed since the socket was stored, the only names it can get
   wrong are those changed between building its URL and storing it.
   */
  lemma OnlyConnectWindowDrifts(symbols: set<string>, maxReconnects: Option<nat>, es: seq<Event>, x: string)
    requires Run(symbols, maxReconnects, es).conn.Session?
    requires var s := Run(symbols, maxReconnects, es);
             forall i :: s.window <= i < |s.log| ==> s.log[i].sent
    ensures var s := Run(symbols, maxReconnects, es);
            (x in Settled(s.conn.streams, s.conn.pending)) != (x in s.symbols) ==>
              exists i :: 0 <= i < s.window && i < |s.log| && x in s.log[i].names
  {
    var s := Run(symbols, maxReconnects, es);
    RunTracked(symbols, maxReconnects, es);
    if Drifted(s.log, x) {
      DriftNeedsUnsentChange(s.log, x);
    }
  }

  // ---- reconnects and backoff ------------------------------------------------------------

  /** The count before failure `i`: none for the first one and after a clean session, else one more than before. */
  function CountBefore(s: State, i: nat): nat
    requires i <= |s.failures|
  {
    if i == 0 || i in s.cleanEnds then 0 else s.failures[i - 1] + 1
  }

  /** Failures are counted in a row, and the count restarts exactly after a clean session. */
  ghost predicate CountsKept(s: State) {
    && (forall k :: k in s.cleanEnds ==> k <= |s.failures|)
    && (forall i :: 0 <= i < |s.failures| ==> s.failures[i] == CountBefore(s, i))
    && s.attempt == CountBefore(s, |s.failures|)
  }

  ghost predicate BackoffKept(s: State, maxReconnects: Option<nat>) {
    && |s.backoff| == |s.failures|
    && (forall i :: 0 <= i < |s.backoff| ==>
          BackoffBase(s.failures[i]) <= s.backoff[i] <= 1.25 * BackoffBase(s.failures[i]))
    && CountsKept(s)
    && (maxReconnects.Some? ==> (s.gaveUp <==> s.attempt > maxReconnects.value) && s.attempt <= maxReconnects.value + 1)
    && (s.gaveUp ==> s.conn.Disconnected? && maxReconnects.Some?)
    && (s.hadSession <==> s.sessions > 0)
    && s.resubscribeCount == (if s.sessions == 0 then 0 else s.sessions - 1)
    && s.sessions <= s.connectCount
    && (s.conn.Connecting? ==> s.sessions < s.connectCount)
  }

  predicate JitterInRange(e: Event) {
    e.Lost? ==> 0.0 <= e.jitter < 1.0
  }

  lemma BackoffInBand(attempt: nat, jitter: real)
    requires 0.0 <= jitter < 1.0
    ensures BackoffBase(attempt) <= NextBackoff(attempt, jitter) <= 1.25 * BackoffBase(attempt)
  {
    var base := BackoffBase(attempt);
    var extra := MulShrinks(base * 0.25, jitter);
    assert extra == jitter * (base * 0.25);
  }

  /** Jitter spreads the attempts over the whole band: every delay in it is some random number's. */
  lemma JitterCovers(attempt: nat, delay: real) returns (jitter: real)
    requires BackoffBase(attempt) <= delay < 1.25 * BackoffBase(attempt)
    ensures 0.0 <= jitter < 1.0 && NextBackoff(attempt, jitter) == delay
  {
    var quarter := BackoffBase(attempt) * 0.25;
    jitter := (delay - BackoffBase(attempt)) / quarter;
    assert jitter * quarter == delay - BackoffBase(attempt);
  }

  lemma SameCount(s: State, t: State, i: nat)
    requires i <= |s.failures| && i <= |t.failures| && t.cleanEnds == s.cleanEnds
    requires i > 0 ==> t.failures[i - 1] == s.failures[i - 1]
    ensures CountBefore(t, i) == CountBefore(s, i)
  {
  }

  lemma NextCount(t: State)
    requires t.failures != [] && |t.failures| !in t.cleanEnds
    ensures CountBefore(t, |t.failures|) == t.failures[|t.failures| - 1] + 1
  {
  }

  lemma FailureKeepsCounts(s: State, maxReconnects: Option<nat>, jitter: real)
    requires CountsKept(s)
    ensures CountsKept(Failed(s, maxReconnects, jitter))
  {
    hide NextBackoff, CountBefore;
    var t, n := Failed(s, maxReconnects, jitter), |s.failures|;
    forall i | 0 <= i <= n
      ensures CountBefore(t, i) == CountBefore(s, i)
    {
      SameCount(s, t, i);
    }
    assert n + 1 !in t.cleanEnds;
    NextCount(t);
  }

  lemma CleanEndKeepsCounts(s: State)
    requires CountsKept(s)
    ensures CountsKept(s.(conn := Disconnected, attempt := 0, cleanEnds := s.cleanEnds + [|s.failures|]))
  {
    var t := s.(conn := Disconnected, attempt := 0, cleanEnds := s.cleanEnds + [|s.failures|]);
    assert forall i :: 0 <= i < |s.failures| ==> CountBefore(t, i) == CountBefore(s, i);
    assert t.cleanEnds[|s.cleanEnds|] == |s.failures|;
  }

  lemma OthersKeepCounts(s: State, t: State)
    requires CountsKept(s) && t.failures == s.failures && t.cleanEnds == s.cleanEnds && t.attempt == s.attempt
    ensures CountsKept(t)
  {
    assert forall i :: 0 <= i <= |s.failures| ==> CountBefore(t, i) == CountBefore(s, i);
  }

  lemma FailureKeepsBackoff(s: State, maxReconnects: Option<nat>, jitter: real)
    requires BackoffKept(s, maxReconnects) && !s.conn.Disconnected? && 0.0 <= jitter < 1.0
    ensures BackoffKept(Failed(s, maxReconnects, jitter), maxReconnects)
  {
    hide BackoffBase, NextBackoff, CountsKept;
    BackoffInBand(s.attempt, jitter);
    FailureKeepsCounts(s, maxReconnects, jitter);
  }

  lemma StepKeepsBackoff(s: State, maxReconnects: Option<nat>, e: Event)
    requires BackoffKept(s, maxReconnects) && JitterInRange(e)
    ensures BackoffKept(Step(s, maxReconnects, e), maxReconnects)
  {
    hide BackoffBase, NextBackoff, Failed, CountsKept;
    if e.Lost? && !s.conn.Disconnected? {
      FailureKeepsBackoff(s, maxReconnects, e.jitter);
    } else if e.Closed? {
      CleanEndKeepsCounts(s);
    } else {
      OthersKeepCounts(s, Step(s, maxReconnects, e));
    }
  }

  /**
   Delays follow the schedule: the k-th failure in a row waits between the k-th step and
   1.25 times it, the count restarts exactly after a clean session, the loop gives up exactly when
   the failures in a row exceed the limit, and every session after the first is counted
   as a resubscription.
   */
  lemma {:induction false} RunBacksOff(symbols: set<string>, maxReconnects: Option<nat>, es: seq<Event>)
    requires forall i :: 0 <= i < |es| ==> JitterInRange(es[i])
    ensures BackoffKept(Run(symbols, maxReconnects, es), maxReconnects)
  {
    hide BackoffBase, Step;
    if es != [] {
      RunBacksOff(symbols, maxReconnects, es[..|es| - 1]);
      assert JitterInRange(es[|es| - 1]);
      StepKeepsBackoff(Run(symbols, maxReconnects, es[..|es| - 1]), maxReconnects, es[|es| - 1]);
    }
  }

  /** The seconds of the backoff schedule, by failures in a row before this one; the last step repeats. */
  predicate FollowsSchedule(failures: nat, delay: real) {
    && (failures == 0 ==> 1.0 <= delay <= 1.25)
    && (failures == 1 ==> 2.0 <= delay <= 2.5)
    && (failures == 2 ==> 5.0 <= delay <= 6.25)
    && (failures == 3 ==> 10.0 <= delay <= 12.5)
    && (failures == 4 ==> 20.0 <= delay <= 25.0)
    && (failures >= 5 ==> 30.0 <= delay <= 37.5)
  }

  lemma InBandFollows(failures: nat, delay: real)
    requires BackoffBase(failures) <= delay <= 1.25 * BackoffBase(failures)
    ensures FollowsSchedule(failures, delay)
  {
  }

  /**
   In every run the delays are those of the schedule, and within one row of failures
   every delay is longer than the one before, until the last step is reached.
   */
  lemma DelaysGrow(symbols: set<string>, maxReconnects: Option<nat>, es: seq<Event>, i: nat)
    requires (forall j :: 0 <= j < |es| ==> JitterInRange(es[j])) && i < |Run(symbols, maxReconnects, es).backoff|
    ensures var s := Run(symbols, maxReconnects, es);
            && |s.failures| == |s.backoff| && FollowsSchedule(s.failures[i], s.backoff[i])
            && (i + 1 < |s.backoff| && i + 1 !in s.cleanEnds && s.failures[i] < 5 ==>
                  s.failures[i + 1] == s.failures[i] + 1 && s.backoff[i] < s.backoff[i + 1])
  {
    hide Run;
    var s := Run(symbols, maxReconnects, es);
    RunBacksOff(symbols, maxReconnects, es);
    InBandFollows(s.failures[i], s.backoff[i]);
    if i + 1 < |s.backoff| {
      InBandFollows(s.failures[i + 1], s.backoff[i + 1]);
      assert s.failures[i + 1] == CountBefore(s, i + 1);
    }
  }
}
