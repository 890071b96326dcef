/**
 Buy pressure, sell pressure and high volatility signals. The engine keeps one
 remembered state per symbol and kind; its ghost logs record every decision it was
 shown, and `Valid` says that each remembered state is the last decisive one.
 */
module Signals {
  import opened Numbers
  import opened Collections
  import opened Latch
  import opened Market
  import opened Indicators
  import opened Trend

  const RSI_OVERBOUGHT := 70.0
  const RSI_OVERSOLD := 30.0

  datatype Pressure = Neutral | Buy | Sell

  datatype Volatility = Normal | High

  datatype Kind = BuySignal | SellSignal | HighvolSignal

  datatype State = PressureState(pressure: Pressure) | VolatilityState(volatility: Volatility)

  datatype SignalResult = SignalResult(kind: Kind, confidence: int, score: real, stateFrom: State, stateTo: State)

  // ---- what one candle says --------------------------------------------------

  /** The state a candle points at, or None while an input is still warming up. */
  function PressureClass(s: Snapshot, trend: Option<TrendResult>): Option<Pressure> {
    if trend.None? || s.rsi.None? || s.volRel.None? then None
    else if trend.value.direction == Up && s.rsi.value < RSI_OVERBOUGHT then Some(Buy)
    else if trend.value.direction == Down && s.rsi.value > RSI_OVERSOLD then Some(Sell)
    else Some(Neutral)
  }

  function RawConfidence(strength: real, rsi: real, volRel: real): real {
    var rsiComponent := Min(Abs(rsi - 50.0) * 2.0, 100.0);
    var volComponent := Min(Max((volRel - 1.0) * 50.0, 0.0), 100.0);
    0.6 * strength + 0.2 * rsiComponent + 0.2 * volComponent
  }

  function PressureConfidence(trend: TrendResult, s: Snapshot): int
    requires s.rsi.Some? && s.volRel.Some?
  {
    RoundHalfEven(Min(Max(RawConfidence(trend.strength, s.rsi.value, s.volRel.value), 0.0), 100.0))
  }

  /** A candle is decisive when it is neutral, or a buy or sell with enough confidence. */
  function PressureDecision(settings: Settings, s: Snapshot, trend: Option<TrendResult>): Option<Pressure> {
    var c := PressureClass(s, trend);
    if c.None? || c == Some(Neutral) then c
    else if PressureConfidence(trend.value, s) < settings.signalMinConfidence then None
    else c
  }

  function HighvolConfidence(settings: Settings, vol: real): int
    requires settings.highVolatilityPct != 0.0
  {
    RoundHalfEven(Min(vol / settings.highVolatilityPct * 50.0, 100.0))
  }

  function HighvolDecision(settings: Settings, s: Snapshot): Option<Volatility>
    requires settings.highVolatilityPct != 0.0
  {
    if s.volRealized.None? then None
    else if s.volRealized.value < settings.highVolatilityPct then Some(Normal)
    else if HighvolConfidence(settings, s.volRealized.value) < settings.signalMinConfidence then None
    else Some(High)
  }

  /** The most a candle's confidence can owe to RSI and volume is 40 points. */
  lemma ConfidenceNeedsStrength(trend: TrendResult, s: Snapshot, m: int)
    requires s.rsi.Some? && s.volRel.Some? && trend.strength >= 0.0
    requires PressureConfidence(trend, s) >= m
    ensures trend.strength >= (m as real - 40.5) / 0.6
  {
    var raw := RawConfidence(trend.strength, s.rsi.value, s.volRel.value);
    assert raw <= 0.6 * trend.strength + 40.0;
  }

  // ---- what a run of candles emits -------------------------------------------

  /** The pressure signal of a candle, given the decisions on the earlier candles. */
  function PressureSignal(settings: Settings, earlier: seq<Option<Pressure>>, s: Snapshot, trend: Option<TrendResult>)
    : Option<SignalResult>
  {
    var d := PressureDecision(settings, s, trend);
    var state := LastDecisive(earlier, Neutral);
    if Fired(earlier, d, Neutral) then
      Some(SignalResult(if d.value == Buy then BuySignal else SellSignal,
                        PressureConfidence(trend.value, s), trend.value.score,
                        PressureState(state), PressureState(d.value)))
    else None
  }

  function HighvolSignal'(settings: Settings, earlier: seq<Option<Volatility>>, s: Snapshot): Option<SignalResult>
    requires settings.highVolatilityPct != 0.0
  {
    var d := HighvolDecision(settings, s);
    var state := LastDecisive(earlier, Normal);
    if Fired(earlier, d, Normal) then
      Some(SignalResult(HighvolSignal, HighvolConfidence(settings, s.volRealized.value), s.volRealized.value,
                        VolatilityState(state), VolatilityState(High)))
    else None
  }

  class SignalEngine {
    const settings: Settings
    var pressureState: map<int, Pressure>
    var highvolState: map<int, Volatility>
    ghost var pressureLog: map<int, seq<Option<Pressure>>>
    ghost var highvolLog: map<int, seq<Option<Volatility>>>

    ghost predicate Valid()
      reads this
    {
      && settings.highVolatilityPct != 0.0
      && Tracks(pressureState, pressureLog, Neutral)
      && Tracks(highvolState, highvolLog, Normal)
    }

    constructor (settings: Settings)
      requires settings.highVolatilityPct != 0.0
      ensures Valid() && this.settings == settings && pressureLog == map[] && highvolLog == map[]
    {
      this.settings := settings;
      pressureState, highvolState := map[], map[];
      pressureLog, highvolLog := map[], map[];
    }

    method EvaluatePressure(id: int, s: Snapshot, trend: Option<TrendResult>) returns (r: Option<SignalResult>)
      requires Valid()
      modifies this
      ensures Valid() && highvolLog == old(highvolLog)
      ensures pressureLog == Logged(old(pressureLog), id, PressureDecision(settings, s, trend))
      ensures r == PressureSignal(settings, GetOr(old(pressureLog), id, []), s, trend)
    {
      hide RawConfidence, PressureConfidence, Tracks, Logged;
      ghost var decision := PressureDecision(settings, s, trend);
      TracksStep(pressureState, pressureLog, Neutral, id, decision);
      pressureLog := Logged(pressureLog, id, decision);

      if trend.None? || s.rsi.None? || s.volRel.None? {
        return None;
      }
      var newState := Neutral;
      if trend.value.direction == Up && s.rsi.value < RSI_OVERBOUGHT {
        newState := Buy;
      } else if trend.value.direction == Down && s.rsi.value > RSI_OVERSOLD {
        newState := Sell;
      }
      var oldState := GetOr(pressureState, id, Neutral);
      if newState == Neutral {
        pressureState := pressureState[id := Neutral];
        return None;
      }
      assert decision.None? || decision == Some(newState);
      if newState == oldState {
        return None;
      }
      var confidence := PressureConfidence(trend.value, s);
      if confidence < settings.signalMinConfidence {
        return None;
      }
      pressureState := pressureState[id := newState];
      r := Some(SignalResult(if newState == Buy then BuySignal else SellSignal, confidence, trend.value.score,
                             PressureState(oldState), PressureState(newState)));
    }

    method EvaluateHighvol(id: int, s: Snapshot) returns (r: Option<SignalResult>)
      requires Valid()
      modifies this
      ensures Valid() && pressureLog == old(pressureLog)
      ensures highvolLog == Logged(old(highvolLog), id, HighvolDecision(settings, s))
      ensures r == HighvolSignal'(settings, GetOr(old(highvolLog), id, []), s)
    {
      hide HighvolConfidence, Tracks, Logged;
      ghost var decision := HighvolDecision(settings, s);
      TracksStep(highvolState, highvolLog, Normal, id, decision);
      highvolLog := Logged(highvolLog, id, decision);

      if s.volRealized.None? {
        return None;
      }
      var isHigh := s.volRealized.value >= settings.highVolatilityPct;
      var oldState := GetOr(highvolState, id, Normal);
      if !isHigh {
        highvolState := highvolState[id := Normal];
        return None;
      }
      assert decision.None? || decision == Some(High);
      if oldState == High {
        return None;
      }
      var confidence := HighvolConfidence(settings, s.volRealized.value);
      if confidence < settings.signalMinConfidence {
        return None;
      }
      highvolState := highvolState[id := High];
      r := Some(SignalResult(HighvolSignal, confidence, s.volRealized.value,
                             VolatilityState(oldState), VolatilityState(High)));
    }

    method Evaluate(id: int, s: Snapshot, trend: Option<TrendResult>) returns (results: seq<SignalResult>)
      requires Valid()
      modifies this
      ensures Valid()
      ensures pressureLog == Logged(old(pressureLog), id, PressureDecision(settings, s, trend))
      ensures highvolLog == Logged(old(highvolLog), id, HighvolDecision(settings, s))
      ensures results == AsSeq(PressureSignal(settings, GetOr(old(pressureLog), id, []), s, trend))
                       + AsSeq(HighvolSignal'(settings, GetOr(old(highvolLog), id, []), s))
    {
      hide PressureSignal, HighvolSignal', PressureDecision, HighvolDecision, Tracks, Logged;
      results := [];
      var pressure := EvaluatePressure(id, s, trend);
      if pressure.Some? {
        results := results + [pressure.value];
      }
      var highvol := EvaluateHighvol(id, s);
      if highvol.Some? {
        results := results + [highvol.value];
      }
    }
  }
}
