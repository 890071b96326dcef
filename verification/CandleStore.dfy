/**
 From a closed candle to the candle table: the sink's id cache, the keyed upsert, and
 the end-to-end refinement to a last-writer-wins table.
 */
module CandleStore {
  import opened Collections
  import opened Market
  import opened BatchProtocol
  import opened BatchDrain
  import opened BatchWriting

  datatype Key = Key(symbolId: int, interval: string, ts: int)

  datatype CandleRow = CandleRow(key: Key, open: real, high: real, low: real, close: real, volume: real,
                                 quoteVolume: real, trades: int, takerBuyVolume: real)

  type Table = map<Key, CandleRow>

  // ---- the keyed upsert -----------------------------------------------------------

  /** Rows written one after another, each overwriting what its key held. */
  function Upserts(table: Table, rows: seq<CandleRow>): Table {
    if rows == [] then table
    else Upserts(table, rows[..|rows| - 1])[rows[|rows| - 1].key := rows[|rows| - 1]]
  }

  class CandleRepository {
    var table: Table

    constructor ()
      ensures table == map[]
    {
      table := map[];
    }

    method InsertBatch(rows: seq<CandleRow>) returns (n: nat)
      modifies this
      ensures table == Upserts(old(table), rows) && n == |rows|
    {
      if rows == [] {
        return 0;
      }
      for i := 0 to |rows|
        invariant table == Upserts(old(table), rows[..i])
      {
        table := table[rows[i].key := rows[i]];
        assert rows[..i + 1][..i] == rows[..i];
      }
      assert rows[..|rows|] == rows;
      n := |rows|;
    }
  }

  /** Row `r` is the last one written for its key. */
  predicate LastFor(rows: seq<CandleRow>, r: CandleRow) {
    exists i :: 0 <= i < |rows| && rows[i] == r && forall j :: i < j < |rows| ==> rows[j].key != r.key
  }

  predicate Mentions(rows: seq<CandleRow>, k: Key) {
    exists i :: 0 <= i < |rows| && rows[i].key == k
  }

  lemma OneMoreRow(front: seq<CandleRow>, last: CandleRow, k: Key)
    ensures Mentions(front + [last], k) <==> Mentions(front, k) || last.key == k
    ensures LastFor(front + [last], last)
    ensures forall r :: LastFor(front, r) && r.key != last.key ==> LastFor(front + [last], r)
  {
    var rows := front + [last];
    assert rows[|front|] == last && forall i :: 0 <= i < |front| ==> rows[i] == front[i];
    forall r | LastFor(front, r) && r.key != last.key
      ensures LastFor(rows, r)
    {
      var i :| 0 <= i < |front| && front[i] == r && forall j :: i < j < |front| ==> front[j].key != r.key;
      assert rows[i] == r;
    }
  }

  /** The table is the last writer of every key, and the old content elsewhere. */
  lemma {:induction false} LastWriterWins(table: Table, rows: seq<CandleRow>, k: Key)
    ensures k in Upserts(table, rows) <==> k in table || Mentions(rows, k)
    ensures Mentions(rows, k) ==> Upserts(table, rows)[k].key == k && LastFor(rows, Upserts(table, rows)[k])
    ensures k in table && !Mentions(rows, k) ==> Upserts(table, rows)[k] == table[k]
  {
    if rows == [] {
      assert !Mentions(rows, k);
    } else {
      hide Mentions, LastFor;
      var front, last := rows[..|rows| - 1], rows[|rows| - 1];
      LastWriterWins(table, front, k);
      assert rows == front + [last];
      OneMoreRow(front, last, k);
    }
  }

  lemma {:induction false} UpsertsConcat(table: Table, a: seq<CandleRow>, b: seq<CandleRow>)
    ensures Upserts(table, a + b) == Upserts(Upserts(table, a), b)
  {
    if b == [] {
      assert a + b == a;
    } else {
      UpsertsConcat(table, a, b[..|b| - 1]);
      assert (a + b)[..|a + b| - 1] == a + b[..|b| - 1];
    }
  }

  /** The table after a sequence of batches. */
  function Batches(table: Table, batches: seq<seq<CandleRow>>): Table {
    if batches == [] then table
    else Upserts(Batches(table, batches[..|batches| - 1]), batches[|batches| - 1])
  }

  /** Batch boundaries do not matter. */
  lemma {:induction false} BatchesAreUpserts(table: Table, batches: seq<seq<CandleRow>>)
    ensures Batches(table, batches) == Upserts(table, Flatten(batches))
  {
    if batches != [] {
      BatchesAreUpserts(table, batches[..|batches| - 1]);
      UpsertsConcat(table, Flatten(batches[..|batches| - 1]), batches[|batches| - 1]);
    }
  }

  /** Redelivering rows the table already shows, in any order and number, changes nothing. */
  lemma {:induction false} RedeliveryIsIdempotent(table: Table, again: seq<CandleRow>)
    requires forall i :: 0 <= i < |again| ==> again[i].key in table && table[again[i].key] == again[i]
    ensures Upserts(table, again) == table
  {
    if again != [] {
      RedeliveryIsIdempotent(table, again[..|again| - 1]);
    }
  }

  lemma LastIsUnique(rows: seq<CandleRow>, r: CandleRow, s: CandleRow)
    requires LastFor(rows, r) && LastFor(rows, s) && r.key == s.key
    ensures r == s
  {
  }

  /** Replaying a whole stretch of arrivals a second time changes nothing. */
  lemma ReplayIsIdempotent(table: Table, rows: seq<CandleRow>)
    ensures Upserts(table, rows + rows) == Upserts(table, rows)
  {
    UpsertsConcat(table, rows, rows);
    var t, u := Upserts(table, rows), Upserts(Upserts(table, rows), rows);
    forall k: Key
      ensures k in t <==> k in u
      ensures k in t ==> t[k] == u[k]
    {
      LastWriterWins(table, rows, k);
      LastWriterWins(t, rows, k);
      if Mentions(rows, k) {
        LastIsUnique(rows, t[k], u[k]);
      }
    }
    assert t == u;
  }

  // ---- the sink and its id cache -------------------------------------------------------

  function RowOf(interval: string, id: int, c: Candle): CandleRow {
    CandleRow(Key(id, interval, c.ts), c.open, c.high, c.low, c.close, c.volume, c.quoteVolume, c.trades,
              c.takerBuyVolume)
  }

  /** A delivered candle, and the symbol registry as it stood at that moment. */
  datatype Arrival = Arrival(candle: Candle, registry: map<string, int>)

  /** What a candle becomes when its id is looked up in `ids`. */
  function RowIn(interval: string, ids: map<string, int>, c: Candle): seq<CandleRow> {
    if c.closed && c.symbol in ids then [RowOf(interval, ids[c.symbol], c)] else []
  }

  /** The rows of the closed, resolvable candles, in arrival order: no cache involved. */
  function Rows(interval: string, arrivals: seq<Arrival>): seq<CandleRow> {
    if arrivals == [] then []
    else
      var last := arrivals[|arrivals| - 1];
      Rows(interval, arrivals[..|arrivals| - 1]) + RowIn(interval, last.registry, last.candle)
  }

  /** The cache after an arrival. */
  function Cached(cache: map<string, int>, a: Arrival): map<string, int> {
    if a.candle.closed && a.candle.symbol !in cache && a.candle.symbol in a.registry
    then cache[a.candle.symbol := a.registry[a.candle.symbol]] else cache
  }

  function CacheAfter(cache: map<string, int>, arrivals: seq<Arrival>): map<string, int> {
    if arrivals == [] then cache
    else Cached(CacheAfter(cache, arrivals[..|arrivals| - 1]), arrivals[|arrivals| - 1])
  }

  /** The rows the sink actually writes, consulting the cache first. */
  function CachedRows(interval: string, cache: map<string, int>, arrivals: seq<Arrival>): seq<CandleRow> {
    if arrivals == [] then []
    else
      var front, last := arrivals[..|arrivals| - 1], arrivals[|arrivals| - 1];
      CachedRows(interval, cache, front)
      + RowIn(interval, Cached(CacheAfter(cache, front), last), last.candle)
  }

  predicate Extends(small: map<string, int>, big: map<string, int>) {
    forall k :: k in small ==> k in big && big[k] == small[k]
  }

  /** Ids are handed out once: the registry only grows, from a state that covers the cache. */
  predicate RegistryGrows(cache: map<string, int>, arrivals: seq<Arrival>) {
    && (forall i :: 0 <= i < |arrivals| ==> Extends(cache, arrivals[i].registry))
    && (forall i, j :: 0 <= i <= j < |arrivals| ==> Extends(arrivals[i].registry, arrivals[j].registry))
  }

  lemma {:induction false} CacheIsTransparent(interval: string, cache: map<string, int>, arrivals: seq<Arrival>)
    requires RegistryGrows(cache, arrivals)
    ensures CachedRows(interval, cache, arrivals) == Rows(interval, arrivals)
    ensures arrivals != [] ==> Extends(CacheAfter(cache, arrivals), arrivals[|arrivals| - 1].registry)
    ensures arrivals == [] ==> CacheAfter(cache, arrivals) == cache
  {
    if arrivals != [] {
      var front, last := arrivals[..|arrivals| - 1], arrivals[|arrivals| - 1];
      CacheIsTransparent(interval, cache, front);
      assert Extends(CacheAfter(cache, front), last.registry) by {
        if front != [] {
          assert Extends(front[|front| - 1].registry, last.registry);
        }
      }
    }
  }

  class CandleSink {
    const interval: string
    const writer: BatchWriter<CandleRow>
    var symbolIds: map<string, int>

    constructor (interval: string, writer: BatchWriter<CandleRow>, symbolIds: map<string, int>)
      ensures this.interval == interval && this.writer == writer && this.symbolIds == symbolIds
    {
      this.interval, this.writer, this.symbolIds := interval, writer, symbolIds;
    }

    method ResolveSymbolId(base: string, registry: map<string, int>) returns (id: Option<int>)
      modifies `symbolIds
      ensures symbolIds == if base !in old(symbolIds) && base in registry then old(symbolIds)[base := registry[base]]
                           else old(symbolIds)
      ensures id == if base in symbolIds then Some(symbolIds[base]) else None
    {
      if base in symbolIds {
        return Some(symbolIds[base]);
      }
      id := if base in registry then Some(registry[base]) else None;
      if id.Some? {
        symbolIds := symbolIds[base := id.value];
      }
    }

    /** The candle callback: only closed candles of known symbols reach the writer. */
    method HandleCandle(candle: Candle, registry: map<string, int>)
      modifies this, writer
      ensures symbolIds == Cached(old(symbolIds), Arrival(candle, registry))
      ensures writer.Model() == Step(old(writer.Model()), AddMany(RowIn(interval, symbolIds, candle)))
    {
      if !candle.closed {
        return;
      }
      var id := ResolveSymbolId(candle.symbol, registry);
      if id.None? {
        return;
      }
      writer.Add(RowOf(interval, id.value, candle));
    }
  }

  // ---- what the table says about the candles ----------------------------------------------

  /** The key a candle is stored under, if it is stored at all. */
  function KeyIn(interval: string, a: Arrival): Option<Key> {
    if a.candle.closed && a.candle.symbol in a.registry
    then Some(Key(a.registry[a.candle.symbol], interval, a.candle.ts)) else None
  }

  /** Arrival `i` is the last closed, resolvable candle with its symbol id and timestamp. */
  predicate LastArrival(interval: string, arrivals: seq<Arrival>, i: nat)
    requires i < |arrivals|
  {
    && KeyIn(interval, arrivals[i]).Some?
    && forall j :: i < j < |arrivals| ==> KeyIn(interval, arrivals[j]) != KeyIn(interval, arrivals[i])
  }

  /** The row shows the candle, field by field. */
  predicate Shows(r: CandleRow, c: Candle) {
    && r.open == c.open && r.high == c.high && r.low == c.low && r.close == c.close
    && r.volume == c.volume && r.quoteVolume == c.quoteVolume && r.trades == c.trades
    && r.takerBuyVolume == c.takerBuyVolume
  }

  lemma UpsertOne(table: Table, rows: seq<CandleRow>, a: Arrival, interval: string)
    ensures var t, u := Upserts(table, rows), Upserts(table, rows + RowIn(interval, a.registry, a.candle));
            match KeyIn(interval, a)
            case None => u == t
            case Some(k) => u.Keys == t.Keys + {k} && Shows(u[k], a.candle) && forall x :: x in t && x != k ==> u[x] == t[x]
  {
    assert rows + [] == rows;
    if KeyIn(interval, a).Some? {
      var row := RowOf(interval, a.registry[a.candle.symbol], a.candle);
      assert (rows + [row])[..|rows|] == rows;
    }
  }

  lemma LastArrivalFront(interval: string, arrivals: seq<Arrival>, i: nat)
    requires i < |arrivals| - 1
    ensures LastArrival(interval, arrivals, i)
       <==> LastArrival(interval, arrivals[..|arrivals| - 1], i)
            && KeyIn(interval, arrivals[|arrivals| - 1]) != KeyIn(interval, arrivals[i])
  {
    hide KeyIn;
  }

  /** For every key a candle arrived for, the table shows the last such candle. */
  lemma {:induction false} TableShowsCandles(table: Table, interval: string, arrivals: seq<Arrival>, i: nat)
    requires i < |arrivals| && LastArrival(interval, arrivals, i)
    ensures var t, k := Upserts(table, Rows(interval, arrivals)), KeyIn(interval, arrivals[i]).value;
            k in t && Shows(t[k], arrivals[i].candle)
  {
    hide Upserts, RowIn, KeyIn, Shows;
    var n := |arrivals| - 1;
    UpsertOne(table, Rows(interval, arrivals[..n]), arrivals[n], interval);
    if i < n {
      LastArrivalFront(interval, arrivals, i);
      TableShowsCandles(table, interval, arrivals[..n], i);
    }
  }

  /** Some closed, resolvable candle arrived for the key. */
  predicate Arrived(interval: string, arrivals: seq<Arrival>, k: Key) {
    exists i :: 0 <= i < |arrivals| && KeyIn(interval, arrivals[i]) == Some(k)
  }

  /** Every key a candle arrived for has a last one. */
  lemma LastArrivalExists(interval: string, arrivals: seq<Arrival>, i: nat) returns (last: nat)
    requires i < |arrivals| && KeyIn(interval, arrivals[i]).Some?
    ensures i <= last < |arrivals| && LastArrival(interval, arrivals, last)
    ensures KeyIn(interval, arrivals[last]) == KeyIn(interval, arrivals[i])
    decreases |arrivals| - i
  {
    hide KeyIn;
    if LastArrival(interval, arrivals, i) {
      return i;
    }
    var j :| i < j < |arrivals| && KeyIn(interval, arrivals[j]) == KeyIn(interval, arrivals[i]);
    last := LastArrivalExists(interval, arrivals, j);
  }

  /** A key no candle arrived for is untouched. */
  lemma {:induction false} OtherKeysUntouched(table: Table, interval: string, arrivals: seq<Arrival>, k: Key)
    requires !Arrived(interval, arrivals, k)
    ensures var t := Upserts(table, Rows(interval, arrivals));
            (k in t <==> k in table) && (k in t ==> t[k] == table[k])
  {
    if arrivals != [] {
      hide Upserts, RowIn, KeyIn, Shows;
      var n := |arrivals| - 1;
      UpsertOne(table, Rows(interval, arrivals[..n]), arrivals[n], interval);
      OtherKeysUntouched(table, interval, arrivals[..n], k);
    }
  }

  // ---- end to end ---------------------------------------------------------------------------

  /** The candle table: the batches the sink accepted, in the order it finished them. */
  ghost function Stored(table: Table, s: State<CandleRow>): Table
    requires forall i :: 0 <= i < |s.landed| ==> s.landed[i] < |s.taken|
  {
    Batches(table, Landed(s, s.landed))
  }

  /** One step of sink and writer together: a candle callback, or anything else the writer does. */
  datatype Joint = Arrives(arrival: Arrival) | Writer(event: BatchProtocol.Event<CandleRow>)

  /** Rows reach the writer through candle callbacks alone. */
  predicate FedByCandles(js: seq<Joint>) {
    forall i :: 0 <= i < |js| ==> js[i].Writer? ==> !js[i].event.AddMany?
  }

  function Arrivals(js: seq<Joint>): seq<Arrival> {
    if js == [] then []
    else Arrivals(js[..|js| - 1]) + if js[|js| - 1].Arrives? then [js[|js| - 1].arrival] else []
  }

  /** What the writer sees of a joint schedule, given the sink's id cache at its start. */
  function WriterEvents(interval: string, cache: map<string, int>, js: seq<Joint>): seq<BatchProtocol.Event<CandleRow>> {
    if js == [] then []
    else
      var front, last := js[..|js| - 1], js[|js| - 1];
      WriterEvents(interval, cache, front)
      + [match last
         case Arrives(a) => AddMany(RowIn(interval, Cached(CacheAfter(cache, Arrivals(front)), a), a.candle))
         case Writer(e) => e]
  }

  lemma AddedStep(s: State<CandleRow>, e: BatchProtocol.Event<CandleRow>)
    ensures Step(s, e).added == s.added + if e.AddMany? then e.items else []
  {
  }

  /** The writer has been given exactly the rows of the candles that arrived. */
  lemma {:induction false} AddedAreArrivals(maxSize: int, interval: string, cache: map<string, int>, js: seq<Joint>)
    requires FedByCandles(js)
    ensures Run(maxSize, WriterEvents(interval, cache, js)).added == CachedRows(interval, cache, Arrivals(js))
  {
    hide RowIn, Cached, Step;
    if js != [] {
      var front, last := js[..|js| - 1], js[|js| - 1];
      AddedAreArrivals(maxSize, interval, cache, front);
      var es := WriterEvents(interval, cache, js);
      assert es[..|es| - 1] == WriterEvents(interval, cache, front);
      AddedStep(Run(maxSize, es[..|es| - 1]), es[|es| - 1]);
      if last.Arrives? {
        assert Arrivals(js) == Arrivals(front) + [last.arrival];
        assert Arrivals(js)[..|Arrivals(js)| - 1] == Arrivals(front);
      } else {
        assert Arrivals(js) == Arrivals(front);
        assert es[|es| - 1] == last.event;
      }
    }
  }

  /**
   Whatever the schedule of candle callbacks, flushes and stops, and wherever the batches
   were cut: if no batch failed, the drained table is the last-writer-wins fold over the
   closed, resolvable candles in arrival order.
   */
  lemma DrainedTableIsLastWriterWins(table: Table, maxSize: int, interval: string, cache: map<string, int>,
                                     js: seq<Joint>, p: nat)
    requires FedByCandles(js) && RegistryGrows(cache, Arrivals(js))
    requires DisciplinedRun(maxSize, WriterEvents(interval, cache, js))
    requires var s := Run(maxSize, WriterEvents(interval, cache, js));
             p < |s.procs| && s.procs[p] == StopReturned(|s.added|) && s.errorCount == 0
    ensures var s := Run(maxSize, WriterEvents(interval, cache, js));
            && (forall i :: 0 <= i < |s.landed| ==> s.landed[i] < |s.taken|)
            && Stored(table, s) == Upserts(table, Rows(interval, Arrivals(js)))
  {
    hide Run, DisciplinedSince, Upserts, CachedRows, Rows;
    var es := WriterEvents(interval, cache, js);
    var s := Run(maxSize, es);
    DrainedDeliversEverything(maxSize, es, p);
    AddedAreArrivals(maxSize, interval, cache, js);
    BatchesAreUpserts(table, Landed(s, s.landed));
    CacheIsTransparent(interval, cache, Arrivals(js));
  }

  /**
   The same in terms of candles: in every such schedule the drained table shows, under
   each key a closed, resolvable candle arrived for, all fields of the last such candle,
   and is unchanged elsewhere.
   */
  lemma DrainedTableShowsLastCandles(table: Table, maxSize: int, interval: string, cache: map<string, int>,
                                     js: seq<Joint>, p: nat, k: Key)
    requires FedByCandles(js) && RegistryGrows(cache, Arrivals(js))
    requires DisciplinedRun(maxSize, WriterEvents(interval, cache, js))
    requires var s := Run(maxSize, WriterEvents(interval, cache, js));
             p < |s.procs| && s.procs[p] == StopReturned(|s.added|) && s.errorCount == 0
    ensures var s, arrivals := Run(maxSize, WriterEvents(interval, cache, js)), Arrivals(js);
            && (forall i :: 0 <= i < |s.landed| ==> s.landed[i] < |s.taken|)
            && (Arrived(interval, arrivals, k) ==>
                  exists i :: 0 <= i < |arrivals| && LastArrival(interval, arrivals, i)
                              && KeyIn(interval, arrivals[i]) == Some(k)
                              && k in Stored(table, s) && Shows(Stored(table, s)[k], arrivals[i].candle))
            && (!Arrived(interval, arrivals, k) ==>
                  && (k in Stored(table, s) <==> k in table)
                  && (k in table ==> Stored(table, s)[k] == table[k]))
  {
    hide Run, DisciplinedRun, Upserts, Rows, Stored, LastArrival, Shows, KeyIn, WriterEvents, Arrivals, RegistryGrows;
    DrainedTableIsLastWriterWins(table, maxSize, interval, cache, js, p);
    var arrivals := Arrivals(js);
    if Arrived(interval, arrivals, k) {
      var i :| 0 <= i < |arrivals| && KeyIn(interval, arrivals[i]) == Some(k);
      var last := LastArrivalExists(interval, arrivals, i);
      TableShowsCandles(table, interval, arrivals, last);
    } else {
      OtherKeysUntouched(table, interval, arrivals, k);
    }
  }
}
