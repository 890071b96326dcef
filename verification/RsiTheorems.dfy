/**
 What the smoothed averages and the RSI say about the prices: the share of the smoothed
 movement that was upward, how it mirrors, and which way one more close can move it.
 */
module RsiTheorems {
  import opened Numbers
  import opened Indicators
  import opened Calculators

  // ---- Wilder smoothing: linear, inside the hull, and forgetting -------------------------

  /** Elementwise sums. */
  function Plus(xs: seq<real>, ys: seq<real>): (r: seq<real>)
    requires |xs| == |ys|
    ensures |r| == |xs|
  {
    seq(|xs|, i requires 0 <= i < |xs| => xs[i] + ys[i])
  }

  lemma {:induction false} SumPlus(xs: seq<real>, ys: seq<real>)
    requires |xs| == |ys|
    ensures Sum(Plus(xs, ys)) == Sum(xs) + Sum(ys)
  {
    if xs != [] {
      var n := |xs| - 1;
      SumPlus(xs[..n], ys[..n]);
      assert Plus(xs, ys)[..n] == Plus(xs[..n], ys[..n]);
    }
  }

  lemma MeanAdds(x: real, y: real, n: real)
    requires n > 0.0
    ensures (x + y) / n == x / n + y / n
  {
  }

  lemma DecayAdds(previous: real, x: real, previous': real, x': real, period: nat)
    requires period > 0
    ensures Decay(previous + previous', x + x', period) == Decay(previous, x, period) + Decay(previous', x', period)
  {
    var w := (period - 1) as real;
    assert (previous + previous') * w == previous * w + previous' * w;
    MeanAdds(previous * w + x, previous' * w + x', period as real);
  }

  /** The smoothed sum is the sum of the smoothed values. */
  lemma {:induction false} WilderAdds(period: nat, xs: seq<real>, ys: seq<real>)
    requires period > 0 && |xs| == |ys| >= period
    ensures Wilder(period, Plus(xs, ys)).value == Wilder(period, xs).value + Wilder(period, ys).value
  {
    hide Decay;
    var n := |xs| - 1;
    if |xs| == period {
      SumPlus(xs, ys);
      MeanAdds(Sum(xs), Sum(ys), period as real);
    } else {
      WilderAdds(period, xs[..n], ys[..n]);
      assert Plus(xs, ys)[..n] == Plus(xs[..n], ys[..n]);
      DecayAdds(Wilder(period, xs[..n]).value, xs[n], Wilder(period, ys[..n]).value, ys[n], period);
    }
  }

  lemma DecayBetween(previous: real, x: real, period: nat, lo: real, hi: real)
    requires period > 0 && lo <= previous <= hi && lo <= x <= hi
    ensures lo <= Decay(previous, x, period) <= hi
  {
    var w, p := (period - 1) as real, period as real;
    MulMonotone(lo, previous, w);
    MulMonotone(previous, hi, w);
    assert p == w + 1.0;
    assert p * lo == lo * w + lo && p * hi == hi * w + hi;
    var sum := previous * w + x;
    assert p * lo <= sum <= p * hi;
    QuotientBetween(sum, p, lo, hi);
  }

  lemma {:induction false} WilderInHull(period: nat, xs: seq<real>, lo: real, hi: real)
    requires period > 0 && |xs| >= period && forall i :: 0 <= i < |xs| ==> lo <= xs[i] <= hi
    ensures lo <= Wilder(period, xs).value <= hi
  {
    hide Decay;
    if |xs| == period {
      SumBounds(xs, lo, hi);
      QuotientBetween(Sum(xs), period as real, lo, hi);
    } else {
      var n := |xs| - 1;
      WilderInHull(period, xs[..n], lo, hi);
      DecayBetween(Wilder(period, xs[..n]).value, xs[n], period, lo, hi);
    }
  }

  function Zeros(n: nat): (r: seq<real>)
    ensures |r| == n
  {
    seq(n, i => 0.0)
  }

  lemma DecayOfZero(average: real, period: nat)
    requires period > 0
    ensures Decay(average, 0.0, period) == average * (1.0 - 1.0 / period as real)
  {
    var p, w := period as real, (period - 1) as real;
    assert w / p == 1.0 - 1.0 / p by {
      assert w == p - 1.0 && p / p == 1.0;
    }
    assert average * w / p == average * (w / p);
  }

  lemma ProductsRegroup(x: real, y: real, z: real)
    ensures (x * y) * z == x * (y * z)
  {
  }

  /** What was averaged before fades by the factor 1 - 1 / period with every further value. */
  lemma {:induction false} WilderForgets(period: nat, xs: seq<real>, k: nat)
    requires period > 0 && |xs| >= period
    ensures Wilder(period, xs + Zeros(k)).value == Wilder(period, xs).value * Power(1.0 - 1.0 / period as real, k)
  {
    hide Decay, Wilder;
    var factor, average := 1.0 - 1.0 / period as real, Wilder(period, xs).value;
    if k == 0 {
      assert xs + Zeros(0) == xs;
      assert Power(factor, 0) == 1.0;
    } else {
      WilderForgets(period, xs, k - 1);
      var before := Wilder(period, xs + Zeros(k - 1)).value;
      assert xs + Zeros(k) == (xs + Zeros(k - 1)) + [0.0];
      WilderAppend(period, xs + Zeros(k - 1), 0.0);
      DecayOfZero(before, period);
      ProductsRegroup(average, Power(factor, k - 1), factor);
    }
  }

  // ---- the RSI as a share ------------------------------------------------------------------

  /** The size of every price change. */
  function Moves(closes: seq<real>): (r: seq<real>)
    ensures |r| == if closes == [] then 0 else |closes| - 1
    ensures forall i :: 0 <= i < |r| ==> r[i] == Abs(closes[i + 1] - closes[i])
  {
    if closes == [] then []
    else seq(|closes| - 1, i requires 0 <= i < |closes| - 1 => Abs(closes[i + 1] - closes[i]))
  }

  /** How much of every price change was a rise. */
  function Rises(closes: seq<real>): (r: seq<real>)
    ensures |r| == if closes == [] then 0 else |closes| - 1
    ensures forall i :: 0 <= i < |r| ==> r[i] == if closes[i + 1] > closes[i] then closes[i + 1] - closes[i] else 0.0
  {
    if closes == [] then []
    else
      seq(|closes| - 1, i requires 0 <= i < |closes| - 1 =>
            if closes[i + 1] > closes[i] then closes[i + 1] - closes[i] else 0.0)
  }

  lemma MovesSplit(closes: seq<real>)
    ensures Gains(closes) == Rises(closes)
    ensures Moves(closes) == Plus(Gains(closes), Losses(closes))
  {
  }

  lemma ShareOf(gain: real, loss: real)
    requires gain >= 0.0 && loss >= 0.0
    ensures RsiFrom(gain, loss) * (gain + loss) == 100.0 * gain
  {
    if loss > 0.0 {
      var rs := gain / loss;
      QuotientNonnegative(gain, loss);
      var q := 100.0 / (1.0 + rs);
      assert rs * loss == gain && q * (1.0 + rs) == 100.0;
      assert gain + loss == (1.0 + rs) * loss;
      assert q * (gain + loss) == (q * (1.0 + rs)) * loss;
      assert RsiFrom(gain, loss) == 100.0 - q;
      assert (100.0 - q) * (gain + loss) == 100.0 * (gain + loss) - q * (gain + loss);
    }
  }

  lemma MovesNonnegative(period: nat, closes: seq<real>)
    requires period > 0 && |closes| > period
    ensures Wilder(period, Gains(closes)).value >= 0.0 && Wilder(period, Losses(closes)).value >= 0.0
    ensures Wilder(period, Moves(closes)).value
         == Wilder(period, Gains(closes)).value + Wilder(period, Losses(closes)).value
  {
    hide Wilder, Gain;
    WilderNonnegative(period, Gains(closes));
    WilderNonnegative(period, Losses(closes));
    MovesSplit(closes);
    WilderAdds(period, Gains(closes), Losses(closes));
  }

  /** A warm RSI is the percentage of the smoothed movement that was upward. */
  lemma RsiIsShare(period: nat, closes: seq<real>)
    requires period > 0 && |closes| > period
    ensures RsiOf(period, closes).value * Wilder(period, Moves(closes)).value
         == 100.0 * Wilder(period, Rises(closes)).value
  {
    hide Wilder, RsiFrom, Gain;
    MovesNonnegative(period, closes);
    MovesSplit(closes);
    ShareOf(Wilder(period, Gains(closes)).value, Wilder(period, Losses(closes)).value);
  }

  lemma SameShare(r: real, moves: real, rises: real, n: real)
    requires n > 0.0 && r * (moves / n) == 100.0 * (rises / n)
    ensures r * moves == 100.0 * rises
  {
    var a, b := moves / n, rises / n;
    assert a * n == moves && b * n == rises;
    assert r * moves == (r * a) * n;
  }

  /** The first reading is the percentage of all movement so far that was upward. */
  lemma FirstRsi(period: nat, closes: seq<real>)
    requires period > 0 && |closes| == period + 1
    ensures RsiOf(period, closes).value * Sum(Moves(closes)) == 100.0 * Sum(Rises(closes))
  {
    hide RsiOf, Sum, Moves, Rises;
    assert |Moves(closes)| == |Rises(closes)| == period by {
      MovesSplit(closes);
      assert |Gains(closes)| == period;
    }
    RsiIsShare(period, closes);
    SameShare(RsiOf(period, closes).value, Sum(Moves(closes)), Sum(Rises(closes)), period as real);
  }

  // ---- mirrored prices -------------------------------------------------------------------------

  /** The same movement with every change reversed. */
  predicate Mirrors(xs: seq<real>, ys: seq<real>) {
    |xs| == |ys| && forall i :: 0 <= i < |xs| - 1 ==> ys[i + 1] - ys[i] == xs[i] - xs[i + 1]
  }

  lemma NothingMoved()
    ensures RsiFrom(0.0, 0.0) == 100.0
  {
  }

  lemma MirroredShare(gain: real, loss: real)
    requires gain >= 0.0 && loss >= 0.0
    ensures RsiFrom(loss, gain) == 100.0 - RsiFrom(gain, loss) <==> gain + loss != 0.0
  {
    hide RsiFrom;
    var r, q, total := RsiFrom(gain, loss), RsiFrom(loss, gain), gain + loss;
    if total == 0.0 {
      assert r == 100.0 == q by {
        NothingMoved();
      }
    } else {
      ShareOf(gain, loss);
      ShareOf(loss, gain);
      assert (r + q - 100.0) * total == r * total + q * total - 100.0 * total;
      if r + q != 100.0 {
        NonzeroProduct(r + q - 100.0, total);
      }
    }
  }

  /** Reversing all changes turns a warm RSI into 100 minus itself, unless the smoothed movement is nil. */
  lemma MirroredRsi(period: nat, xs: seq<real>, ys: seq<real>)
    requires period > 0 && |xs| > period && Mirrors(xs, ys)
    ensures RsiOf(period, ys).value == 100.0 - RsiOf(period, xs).value <==> Wilder(period, Moves(xs)).value != 0.0
  {
    hide Wilder, RsiFrom;
    assert Gains(ys) == Losses(xs) && Losses(ys) == Gains(xs);
    MovesNonnegative(period, xs);
    MirroredShare(Wilder(period, Gains(xs)).value, Wilder(period, Losses(xs)).value);
  }

  lemma {:induction false} Unmoved(closes: seq<real>, i: nat)
    requires i < |closes| && AllZero(Moves(closes))
    ensures closes[i] == closes[0]
  {
    if i > 0 {
      Unmoved(closes, i - 1);
      assert Moves(closes)[i - 1] == 0.0;
    }
  }

  /** With a period of at least 2 the smoothed movement is nil only if the price never moved. */
  lemma NoMovement(period: nat, closes: seq<real>)
    requires period >= 2 && |closes| > period
    ensures Wilder(period, Moves(closes)).value == 0.0 <==> Constant(closes)
  {
    WilderZero(period, Moves(closes));
    if AllZero(Moves(closes)) {
      forall i | 0 <= i < |closes|
        ensures closes[i] == closes[0]
      {
        Unmoved(closes, i);
      }
    }
    if Constant(closes) {
      forall i | 0 <= i < |Moves(closes)|
        ensures Moves(closes)[i] == 0.0
      {
        assert closes[i + 1] == closes[0] && closes[i] == closes[0];
      }
    }
  }

  // ---- one more close ----------------------------------------------------------------------------

  lemma LargerShare(gain: real, loss: real, gain': real, loss': real)
    requires gain >= 0.0 && loss >= 0.0 && gain' >= 0.0 && loss' >= 0.0
    requires gain' * loss >= gain * loss'
    requires loss' == 0.0 || gain + loss > 0.0
    ensures RsiFrom(gain', loss') >= RsiFrom(gain, loss)
  {
    if loss' > 0.0 {
      hide RsiFrom;
      var r, q, total, total' := RsiFrom(gain, loss), RsiFrom(gain', loss'), gain + loss, gain' + loss';
      ShareOf(gain, loss);
      ShareOf(gain', loss');
      assert gain' * total - gain * total' == gain' * loss - gain * loss';
      assert (q * total') * total == 100.0 * (gain' * total);
      assert (r * total) * total' == 100.0 * (gain * total');
      PositiveProduct(total, total');
      ProductsRegroup(r, total, total');
      ProductsRegroup(q, total', total);
      assert total' * total == total * total';
      CancelFactor(r, q, total * total');
    }
  }

  /** One smoothing step, the first average gaining something and the second nothing. */
  lemma CrossProducts(up: real, down: real, x: real, period: nat)
    requires period > 0 && up >= 0.0 && down >= 0.0 && x >= 0.0
    ensures Decay(up, x, period) * down >= up * Decay(down, 0.0, period)
  {
    var w, p := (period - 1) as real, period as real;
    var u, d := Decay(up, x, period), Decay(down, 0.0, period);
    assert u * p == up * w + x && d * p == down * w;
    assert (u * down) * p == (up * w + x) * down == up * (down * w) + x * down;
    assert (up * d) * p == up * (down * w);
    MulNonnegative(x, down);
    CancelFactor(up * d, u * down, p);
  }

  lemma RisingStep(gain: real, loss: real, x: real, period: nat)
    requires period > 0 && gain >= 0.0 && loss >= 0.0 && x >= 0.0
    requires Decay(gain, x, period) >= 0.0 && Decay(loss, 0.0, period) >= 0.0
    ensures RsiFrom(Decay(gain, x, period), Decay(loss, 0.0, period)) >= RsiFrom(gain, loss)
  {
    CrossProducts(gain, loss, x, period);
    WilderStep(loss, 0.0, period);
    LargerShare(gain, loss, Decay(gain, x, period), Decay(loss, 0.0, period));
  }

  lemma FallingStep(gain: real, loss: real, x: real, period: nat)
    requires period > 0 && gain >= 0.0 && loss >= 0.0 && x > 0.0
    requires Decay(gain, 0.0, period) >= 0.0 && Decay(loss, x, period) >= 0.0
    ensures RsiFrom(Decay(gain, 0.0, period), Decay(loss, x, period)) <= RsiFrom(gain, loss)
  {
    CrossProducts(loss, gain, x, period);
    WilderStep(loss, x, period);
    LargerShare(Decay(gain, 0.0, period), Decay(loss, x, period), gain, loss);
  }

  /** A close that does not fall never lowers a warm RSI, and one that falls never raises it. */
  lemma RsiFollowsClose(period: nat, closes: seq<real>, close: real)
    requires period > 0 && |closes| > period
    ensures close >= closes[|closes| - 1] ==> RsiOf(period, closes + [close]).value >= RsiOf(period, closes).value
    ensures close < closes[|closes| - 1] ==> RsiOf(period, closes + [close]).value <= RsiOf(period, closes).value
  {
    hide Wilder, RsiFrom, Decay, RsiOf;
    RsiAppend(period, closes, close);
    RsiFromChanges(period, closes);
    var gain, loss := Wilder(period, Gains(closes)).value, Wilder(period, Losses(closes)).value;
    var last := closes[|closes| - 1];
    if close >= last {
      RisingStep(gain, loss, close - last, period);
    } else {
      FallingStep(gain, loss, last - close, period);
    }
  }
}
