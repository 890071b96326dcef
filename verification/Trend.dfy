/** Trend direction, strength and slope from the pair of averages of one snapshot. */
module Trend {
  import opened Numbers
  import opened Collections
  import opened Indicators

  const FLAT_THRESHOLD_PCT := 0.05
  const STRENGTH_SCALE := 20.0

  datatype Direction = Up | Down | Flat

  datatype TrendResult = TrendResult(direction: Direction, strength: real, slope: real, score: real)

  /** Separation of the averages, in percent of the slow one. */
  function DiffPct(fast: real, slow: real): real
    requires slow != 0.0
  {
    (fast - slow) / Abs(slow) * 100.0
  }

  function ComputeTrend(s: Snapshot): Option<TrendResult> {
    if s.emaFast.None? || s.emaSlow.None? || s.emaSlow.value == 0.0 then None
    else
      var diff := DiffPct(s.emaFast.value, s.emaSlow.value);
      var direction :=
        if diff > FLAT_THRESHOLD_PCT then Up else if diff < -FLAT_THRESHOLD_PCT then Down else Flat;
      var strength := Min(Abs(diff) * STRENGTH_SCALE, 100.0);
      var score := match direction case Up => strength case Down => -strength case Flat => 0.0;
      var slope :=
        if s.emaSlowPrev.Some? && s.emaSlowPrev.value != 0.0
        then DiffPct(s.emaSlow.value, s.emaSlowPrev.value) else 0.0;
      Some(TrendResult(direction, strength, slope, score))
  }

  /** The separation has the sign of the difference of the averages. */
  lemma DiffSign(fast: real, slow: real)
    requires slow != 0.0
    ensures fast >= slow ==> DiffPct(fast, slow) >= 0.0
    ensures fast <= slow ==> DiffPct(fast, slow) <= 0.0
  {
    var scale := Abs(slow);
    if fast >= slow {
      DivMonotone(0.0, fast - slow, scale);
    }
    if fast <= slow {
      DivMonotone(fast - slow, 0.0, scale);
    }
  }

  lemma StrictlyMonotone(x: real, y: real, c: real)
    requires x < y && c > 0.0
    ensures x * c < y * c
  {
  }

  lemma NarrowerQuotient(width: real, slow: real, lo: real)
    requires 0.0 < lo <= slow && 0.0 <= width
    ensures width / slow <= width / lo
  {
    var q, bound := width / slow, width / lo;
    DivMonotone(0.0, width, slow);
    DivMonotone(0.0, width, lo);
    MulMonotone(lo, slow, bound);
    assert q * slow == width == bound * lo;
    assert q * slow <= bound * slow by {
      assert lo * bound == bound * lo && slow * bound == bound * slow;
    }
    if q > bound {
      StrictlyMonotone(bound, q, slow);
    }
  }

  lemma QuotientInBand(d: real, slow: real, width: real, lo: real)
    requires 0.0 < lo <= slow && -width <= d <= width
    ensures -(width / lo) <= d / slow <= width / lo
  {
    DivMonotone(d, width, slow);
    DivMonotone(-width, d, slow);
    NarrowerQuotient(width, slow, lo);
    assert -width / slow == -(width / slow);
  }

  /** Averages inside [lo, hi] with lo > 0 are at most the width of that band apart. */
  lemma DiffInBand(fast: real, slow: real, lo: real, hi: real)
    requires 0.0 < lo && lo <= fast <= hi && lo <= slow <= hi
    ensures Abs(DiffPct(fast, slow)) <= (hi - lo) / lo * 100.0
  {
    QuotientInBand(fast - slow, slow, hi - lo, lo);
  }
}
