/** The candle every feed delivers and the analytics settings. */
module Market {

  /** A bar; `ts` is its open time in epoch milliseconds. */
  datatype Candle = Candle(
    symbol: string,
    ts: int,
    open: real,
    high: real,
    low: real,
    close: real,
    volume: real,
    quoteVolume: real,
    trades: int,
    closed: bool,
    takerBuyVolume: real)

  /**
   The part of the configuration the analytics read. `log` and `sqrt` stand for the
   library functions; what a theorem uses about them it says.
   */
  datatype Settings = Settings(
    emaFastPeriod: nat,
    emaSlowPeriod: nat,
    rsiPeriod: nat,
    atrPeriod: nat,
    realizedVolWindow: nat,
    relativeVolumeWindow: nat,
    breakoutWindow: nat,
    pumpDumpWindow: nat,
    pumpDumpPct: real,
    volSpikeWindow: nat,
    volSpikeMultiplier: real,
    highVolatilityPct: real,
    signalMinConfidence: int,
    enableSignals: bool,
    log: real -> real,
    sqrt: real -> real)
  {
    /** The lookbacks and thresholds no code path divides by zero with. */
    predicate Usable() {
      && emaFastPeriod > 0 && emaSlowPeriod > 0 && rsiPeriod > 0 && atrPeriod > 0
      && realizedVolWindow > 0 && relativeVolumeWindow > 0
      && breakoutWindow > 0 && pumpDumpWindow > 0 && volSpikeWindow > 0
      && pumpDumpPct != 0.0 && highVolatilityPct != 0.0 && volSpikeMultiplier != 0.0
    }

    ghost predicate SqrtNonnegative() {
      forall x :: x >= 0.0 ==> sqrt(x) >= 0.0
    }
  }

  function Closes(h: seq<Candle>): (r: seq<real>)
    ensures |r| == |h|
  {
    seq(|h|, i requires 0 <= i < |h| => h[i].close)
  }

  function Volumes(h: seq<Candle>): (r: seq<real>)
    ensures |r| == |h|
  {
    seq(|h|, i requires 0 <= i < |h| => h[i].volume)
  }
}
